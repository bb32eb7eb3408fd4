/** Whom a revoke reaches, from its publication to the close code the write pump acts on. */
module Revocation {
  import opened ChannelNames
  import opened RedisModel
  import opened HubModel
  import opened Options
  import opened GatewaySystem
  import opened SystemInvariant
  import opened Guarantees
  import opened Pumps
  import opened Wire

  /** A registered client is on a reserved channel exactly if it is one of its own two and no
      unsubscribe request naming it was served. */
  lemma OnReserved<C>(cfg: Config, s: System<C>, c: C, ch: string)
    requires Sound(cfg, s) && c in s.hub.clients && Reserved(ch)
    ensures c in Members(s.hub.channels, ch)
            <==> OwnControl(s.hub.conns[c], ch) && ch !in s.hub.conns[c].hist.unsubscribed
  {
  }

  /** The members of a user's control channel, in every reachable state. */
  lemma UserMembers<C>(cfg: Config, s: System<C>, u: int)
    requires Sound(cfg, s)
    ensures Members(s.hub.channels, UserChannel(u)) ==
            set c | c in s.hub.clients && s.hub.conns[c].userID == u
                    && UserChannel(u) !in s.hub.conns[c].hist.unsubscribed
  {
    assert Members(s.hub.channels, UserChannel(u)) <= s.hub.clients;
    forall c | c in s.hub.clients
      ensures c in Members(s.hub.channels, UserChannel(u)) <==>
              s.hub.conns[c].userID == u && UserChannel(u) !in s.hub.conns[c].hist.unsubscribed
    {
      ControlNames(s.hub.conns[c].sessionKey, "", u, s.hub.conns[c].userID);
      OnReserved(cfg, s, c, UserChannel(u));
    }
  }

  lemma SessionMembers<C>(cfg: Config, s: System<C>, key: string)
    requires Sound(cfg, s)
    ensures Members(s.hub.channels, SessionChannel(key)) ==
            set c | c in s.hub.clients && s.hub.conns[c].sessionKey == key
                    && SessionChannel(key) !in s.hub.conns[c].hist.unsubscribed
  {
    assert Members(s.hub.channels, SessionChannel(key)) <= s.hub.clients;
    forall c | c in s.hub.clients
      ensures c in Members(s.hub.channels, SessionChannel(key)) <==>
              s.hub.conns[c].sessionKey == key && SessionChannel(key) !in s.hub.conns[c].hist.unsubscribed
    {
      ControlNames(key, s.hub.conns[c].sessionKey, s.hub.conns[c].userID, 0);
      OnReserved(cfg, s, c, SessionChannel(key));
    }
  }

  /** What a revoke does to one connection: a member has a signal pending, 4401 unless an earlier one
      is waiting, and nothing changes for anybody else. */
  ghost predicate Revoked(k: Conn, k': Conn, member: bool) {
    if !member then k' == k
    else if k.mailbox.Some? then k'.mailbox == k.mailbox
    else k'.mailbox == Some(Reason(4401, "session_revoked"))
  }

  /** A revoke published for a user signals exactly that user's registered clients for which no
      unsubscribe naming the user's control channel was served. */
  lemma RevokeUser<C>(cfg: Config, run: seq<Action<C>>, u: int, msg: Message, c: C)
    requires IsRun(cfg, Start(), run) && c in After(cfg, Start(), run).hub.conns
    requires msg.channel == UserChannel(u) && msg.body.kind == Some("revoke")
    ensures var s := After(cfg, Start(), run).hub;
            var t := HandleIncoming(s, msg);
            && t == s.(conns := t.conns) && c in t.conns
            && Revoked(s.conns[c], t.conns[c],
                 c in s.clients && s.conns[c].userID == u && UserChannel(u) !in s.conns[c].hist.unsubscribed)
  {
    EveryRunSound(cfg, run);
    UserMembers(cfg, After(cfg, Start(), run), u);
    ControlNames("", "", u, u);
  }

  lemma RevokeSession<C>(cfg: Config, run: seq<Action<C>>, key: string, msg: Message, c: C)
    requires IsRun(cfg, Start(), run) && c in After(cfg, Start(), run).hub.conns
    requires msg.channel == SessionChannel(key) && msg.body.kind == Some("revoke")
    ensures var s := After(cfg, Start(), run).hub;
            var t := HandleIncoming(s, msg);
            && t == s.(conns := t.conns) && c in t.conns
            && Revoked(s.conns[c], t.conns[c],
                 c in s.clients && s.conns[c].sessionKey == key && SessionChannel(key) !in s.conns[c].hist.unsubscribed)
  {
    EveryRunSound(cfg, run);
    SessionMembers(cfg, After(cfg, Start(), run), key);
    ControlNames(key, key, 0, 0);
  }

  // ---- Whom a revoke reaches, and whom not ----

  /** What a revoke names: a user (`force_logout_user`) or a session (the logout signal). */
  datatype Target = User(id: int) | Session(key: string)

  function Control(to: Target): string {
    match to
    case User(id) => UserChannel(id)
    case Session(key) => SessionChannel(key)
  }

  predicate Aims(to: Target, k: Conn) {
    match to
    case User(id) => k.userID == id
    case Session(key) => k.sessionKey == key
  }

  predicate IsRevoke(to: Target, msg: Message) {
    msg.channel == Control(to) && msg.body.kind == Some("revoke")
  }

  /** A connection of the target that is open: it was accepted, and its write pump still runs. */
  predicate Open<C>(s: System<C>, to: Target, c: C) {
    c in s.hub.conns && c in s.pumps && Aims(to, s.hub.conns[c]) && s.pumps[c].running
  }

  /** Its registration was served, and it did not unsubscribe from the control channel. */
  predicate Listening<C>(s: System<C>, to: Target, c: C)
    requires c in s.hub.conns
  {
    c in s.hub.clients && Control(to) !in s.hub.conns[c].hist.unsubscribed
  }

  /** Told to stop at all, and told so with 4401. */
  predicate Told(k: Conn) {
    k.mailbox.Some?
  }

  predicate ToldRevoked(k: Conn) {
    k.mailbox.Some? && k.mailbox.value.code == 4401
  }

  /** A removed or refused connection that is still open was told to stop; a waiting one was told nothing. */
  lemma OpenFacts<C>(cfg: Config, run: seq<Action<C>>, to: Target, c: C)
    requires IsRun(cfg, Start(), run) && Open(After(cfg, Start(), run), to, c)
    ensures var s := After(cfg, Start(), run);
            var k := s.hub.conns[c];
            && s.pumps[c].acted == None
            && (Gone(s.hub, c) ==> Told(k))
            && (c in s.hub.pending ==> !Told(k) && c !in s.hub.clients)
            && (Told(k) ==> k.hist.signals != [] && k.mailbox.value == k.hist.signals[0])
  {
    EveryRunSound(cfg, run);
    var s := After(cfg, Start(), run);
    assert ConnOk(s.hub.conns[c], s.pumps[c], c in s.hub.pending, c in s.hub.clients);
  }

  lemma OpenReached<C>(cfg: Config, run: seq<Action<C>>, to: Target, msg: Message, c: C)
    requires IsRun(cfg, Start(), run) && Open(After(cfg, Start(), run), to, c) && IsRevoke(to, msg)
    ensures var s := After(cfg, Start(), run);
            var k, t := s.hub.conns[c], HandleIncoming(s.hub, msg);
            && c in t.conns
            && (Told(t.conns[c]) <==> Told(k) || Listening(s, to, c))
            && (ToldRevoked(t.conns[c]) <==> if Told(k) then ToldRevoked(k) else Listening(s, to, c))
            && (!Told(k) && Told(t.conns[c]) ==> t.conns[c].mailbox.value == Reason(4401, "session_revoked"))
  {
    OpenFacts(cfg, run, to, c);
    match to
    case User(id) => RevokeUser(cfg, run, id, msg, c);
    case Session(key) => RevokeSession(cfg, run, key, msg, c);
  }

  /** Among the connections open in `s`: those of the target are told, with 4401, by `after`. */
  ghost predicate AllTold<C>(s: System<C>, to: Target, after: map<C, Conn>) {
    forall c | c in after && Open(s, to, c) :: Told(after[c])
  }

  ghost predicate AllToldRevoked<C>(s: System<C>, to: Target, after: map<C, Conn>) {
    forall c | c in after && Open(s, to, c) :: ToldRevoked(after[c])
  }

  ghost predicate EachToldOrListening<C>(s: System<C>, to: Target) {
    forall c | c in s.hub.conns && Open(s, to, c) :: Told(s.hub.conns[c]) || Listening(s, to, c)
  }

  ghost predicate EachToldRevokedOrListening<C>(s: System<C>, to: Target) {
    forall c | c in s.hub.conns && Open(s, to, c) ::
      if Told(s.hub.conns[c]) then ToldRevoked(s.hub.conns[c]) else Listening(s, to, c)
  }

  /** docs/docs/logout.md has a revoke reach every open connection of its target, and its behaviour
      matrix has every one of them closed with 4401. When the hub takes the revoke: it leaves all of
      them told to stop exactly when each had been told before or is listening, and all told 4401
      exactly when each was told 4401 before, or was told nothing and is listening. */
  lemma RevokeReachesAllExactlyWhen<C>(cfg: Config, run: seq<Action<C>>, to: Target, msg: Message)
    requires IsRun(cfg, Start(), run) && IsRevoke(to, msg)
    ensures var s := After(cfg, Start(), run);
            var after := HandleIncoming(s.hub, msg).conns;
            && after.Keys == s.hub.conns.Keys
            && (AllTold(s, to, after) <==> EachToldOrListening(s, to))
            && (AllToldRevoked(s, to, after) <==> EachToldRevokedOrListening(s, to))
  {
    var s := After(cfg, Start(), run);
    var after := HandleIncoming(s.hub, msg).conns;
    assert after.Keys == s.hub.conns.Keys;
    forall c | c in after && Open(s, to, c)
      ensures Told(after[c]) <==> Told(s.hub.conns[c]) || Listening(s, to, c)
      ensures ToldRevoked(after[c])
              <==> if Told(s.hub.conns[c]) then ToldRevoked(s.hub.conns[c]) else Listening(s, to, c)
    {
      OpenReached(cfg, run, to, msg, c);
    }
  }

  /** From the hub's receipt of the revoke to the close code: in every future, the pump of an open
      connection that was told nothing before and is listening can take the signal as long as it runs,
      has acted exactly if it took it, and then on 4401. */
  lemma RevokedConnectionCloses4401<C>(cfg: Config, past: seq<Action<C>>, to: Target, c: C, future: seq<Action<C>>)
    requires IsRun(cfg, Start(), past) && Open(After(cfg, Start(), past), to, c)
    requires Possible(After(cfg, Start(), past), HubReceives)
    requires IsRevoke(to, After(cfg, Start(), past).incoming[0])
    requires !Told(After(cfg, Start(), past).hub.conns[c]) && Listening(After(cfg, Start(), past), to, c)
    requires IsRun(cfg, Act(cfg, After(cfg, Start(), past), HubReceives), future)
    ensures var t := After(cfg, Act(cfg, After(cfg, Start(), past), HubReceives), future);
            && c in t.hub.conns && c in t.pumps
            && (t.pumps[c].running ==> ToldRevoked(t.hub.conns[c]) && Possible(t, PumpWakes(c, OnSignal)))
            && (OnSignal in WakesOf(future, c) ==> t.pumps[c].acted == Some(Reason(4401, "session_revoked")))
            && (OnSignal !in WakesOf(future, c) ==> t.pumps[c].acted == None)
  {
    var s := After(cfg, Start(), past);
    OpenReached(cfg, past, to, s.incoming[0], c);
    OneStep(cfg, s, HubReceives);
    RunAppend(cfg, Start(), past, [HubReceives]);
    OpenFacts(cfg, past + [HubReceives], to, c);
    FirstReasonDecides(cfg, past + [HubReceives], c, future);
    PumpRun(cfg, Act(cfg, s, HubReceives), future, c);
  }

  /** One connection the revoke misses: registered, then unsubscribed from `_user:1:revoke`. */
  lemma RevokeCanMiss<C>(cfg: Config, c: C, key: string, msg: Message)
    requires cfg.maxTotal <= 0 && cfg.maxPerUser <= 0
    requires msg.channel == UserChannel(1) && msg.body.kind == Some("revoke")
    ensures var s0 := Step(cfg, Init(), PostRegister(c, 1, key, {}));
            && Enabled(s0, Register(c, {}))
            && var s1 := Step(cfg, s0, Register(c, {}));
               && Enabled(s1, ClientUnsubscribe(c, UserChannel(1), {}))
               && var s2 := Step(cfg, s1, ClientUnsubscribe(c, UserChannel(1), {}));
                  && c in s2.clients && c in s2.conns && c in HandleIncoming(s2, msg).conns
                  && HandleIncoming(s2, msg).conns[c].mailbox.None?
  {
  }

  /** Another: accepted, but its registration is still queued. It ends up registered, told nothing, and
      never unsubscribed from anything. */
  lemma RevokeMissesWaiting<C>(cfg: Config, c: C, key: string, msg: Message)
    requires cfg.maxTotal <= 0 && cfg.maxPerUser <= 0
    requires msg.channel == UserChannel(1) && msg.body.kind == Some("revoke")
    ensures var s0 := Step(cfg, Init(), PostRegister(c, 1, key, {}));
            var s1 := HandleIncoming(s0, msg);
            && c in s0.pending && Enabled(s1, Register(c, {}))
            && var s2 := Step(cfg, s1, Register(c, {}));
               && c in s2.clients && c in s2.conns && !Told(s2.conns[c])
               && s2.conns[c].hist.unsubscribed == {} && s2.conns[c].hist.signals == []
  {
  }

  // ---- From the publication on ----

  /** Redis passes a published message on if the gateway's connection is subscribed to its channel. */
  function Publish<C>(cfg: Config, s: System<C>, ch: string, body: Body): System<C> {
    if OnWire(Log(s.hub.redis, ch)) then Act(cfg, s, Arrive(ch, body)) else s
  }

  lemma {:induction false} ArrivedGrows<C>(cfg: Config, s: System<C>, run: seq<Action<C>>)
    requires IsRun(cfg, s, run)
    ensures s.arrived <= After(cfg, s, run).arrived
    decreases |run|
  {
    if |run| > 0 {
      ArrivedGrows(cfg, Act(cfg, s, run[0]), run[1..]);
    }
  }

  /** The first message in the queue is the next one of those that arrived. */
  lemma NextInLine<C>(cfg: Config, run: seq<Action<C>>)
    requires IsRun(cfg, Start(), run) && |After(cfg, Start(), run).incoming| > 0
    ensures var t := After(cfg, Start(), run);
            |t.processed| < |t.arrived| && t.incoming[0] == t.arrived[|t.processed|]
  {
    EveryRunSound(cfg, run);
  }

  /** A revoke published while its control channel is off the wire is lost. Otherwise it is the message
      with the number it got, and when its turn comes, it reaches every connection of the target then
      open exactly when each of them was told before or is listening, 4401 included. */
  lemma PublishedRevoke<C>(cfg: Config, past: seq<Action<C>>, to: Target, body: Body, future: seq<Action<C>>)
    requires IsRun(cfg, Start(), past) && body.kind == Some("revoke")
    requires IsRun(cfg, Publish(cfg, After(cfg, Start(), past), Control(to), body), future)
    ensures var s := After(cfg, Start(), past);
            var p := Publish(cfg, s, Control(to), body);
            var t, msg := After(cfg, p, future), Message(|s.arrived|, Control(to), body);
            if !OnWire(Log(s.hub.redis, Control(to))) then p == s
            else
              && |s.arrived| < |t.arrived| && t.arrived[|s.arrived|] == msg
              && (|t.incoming| > 0 && |t.processed| == |s.arrived| ==>
                    && t.incoming[0] == msg
                    && var after := Act(cfg, t, HubReceives).hub.conns;
                       && after.Keys == t.hub.conns.Keys
                       && (AllTold(t, to, after) <==> EachToldOrListening(t, to))
                       && (AllToldRevoked(t, to, after) <==> EachToldRevokedOrListening(t, to)))
  {
    var s := After(cfg, Start(), past);
    var p := Publish(cfg, s, Control(to), body);
    if OnWire(Log(s.hub.redis, Control(to))) {
      var arrival := Arrive(Control(to), body);
      var t := After(cfg, p, future);
      ArrivedGrows(cfg, p, future);
      OneStep(cfg, s, arrival);
      RunAppend(cfg, Start(), past, [arrival]);
      RunAppend(cfg, Start(), past + [arrival], future);
      if |t.incoming| > 0 && |t.processed| == |s.arrived| {
        NextInLine(cfg, past + [arrival] + future);
        RevokeReachesAllExactlyWhen(cfg, past + [arrival] + future, to, t.incoming[0]);
      }
    }
  }

  /** And the case exists in which it is lost: the user's only connection is registered and never
      unsubscribed, but the SUBSCRIBE for its control channel failed. */
  lemma RevokeMissesDeaf<C>(cfg: Config, c: C, key: string, body: Body)
    requires cfg.maxTotal <= 0 && cfg.maxPerUser <= 0
    ensures IsRun(cfg, Start(), FailedJoin(c, key))
    ensures var s := After(cfg, Start(), FailedJoin(c, key));
            && Publish(cfg, s, UserChannel(1), body) == s
            && c in s.hub.clients && c in s.hub.conns && s.hub.conns[c].hist.unsubscribed == {}
  {
    FailedSubscribeIsDeaf(cfg, c, key);
  }
}
