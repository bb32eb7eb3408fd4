/** Which channels the gateway's Redis connection is subscribed to, in every run. */
module Wire {
  import opened ChannelNames
  import opened RedisModel
  import opened HubModel
  import opened HubInvariant
  import opened GatewaySystem
  import opened SystemInvariant

  /** The Redis commands of the request all succeed. */
  predicate NoCommandFails<C(==)>(a: Action<C>) {
    match a
    case HubServes(Register(_, fail)) => fail == {}
    case HubServes(Unregister(_, fail)) => fail == {}
    case HubServes(ClientSubscribe(_, _, fail)) => fail == {}
    case HubServes(ClientUnsubscribe(_, _, fail)) => fail == {}
    case _ => true
  }

  ghost predicate NoneFailed(r: Redis) {
    forall ch | ch in r.log :: forall i | 0 <= i < |r.log[ch]| :: r.log[ch][i].ok
  }

  lemma UnsubscribeNoneFailed(r: Redis, gone: set<string>)
    requires NoneFailed(r)
    ensures NoneFailed(UnsubscribeAll(r, gone, {}))
  {
  }

  lemma AddNoneFailed<C>(s: State<C>, c: C, ch: string)
    requires c in s.conns && NoneFailed(s.redis)
    ensures NoneFailed(AddSubscription(s, c, ch, {}).redis)
  {
  }

  lemma RegisterNoneFailed<C>(cfg: Config, s: State<C>, c: C)
    requires c in s.conns && NoneFailed(s.redis)
    ensures NoneFailed(HandleRegister(cfg, s, c, {}).redis)
  {
    var j := Join(s.(pending := s.pending - {c}), c);
    AddNoneFailed(j, c, SessionChannel(s.conns[c].sessionKey));
    AddNoneFailed(AddSubscription(j, c, SessionChannel(s.conns[c].sessionKey), {}), c, UserChannel(s.conns[c].userID));
  }

  lemma NoneFailedStep<C>(cfg: Config, s: State<C>, e: Event<C>)
    requires Enabled(s, e) && NoneFailed(s.redis) && NoCommandFails(HubServes(e))
    ensures NoneFailed(Step(cfg, s, e).redis)
  {
    match e
    case Register(c, fail) => RegisterNoneFailed(cfg, s, c);
    case Unregister(c, fail) => UnsubscribeNoneFailed(s.redis, Emptied(s.channels, c, s.conns[c].subscribed));
    case ClientSubscribe(c, ch, fail) => AddNoneFailed(s, c, ch);
    case ClientUnsubscribe(c, ch, fail) => UnsubscribeNoneFailed(s.redis, Emptied(s.channels, c, {ch}));
    case _ =>
  }

  lemma {:induction false} NoneFailedRun<C>(cfg: Config, s: System<C>, run: seq<Action<C>>)
    requires IsRun(cfg, s, run) && NoneFailed(s.hub.redis)
    requires forall i | 0 <= i < |run| :: NoCommandFails(run[i])
    ensures NoneFailed(After(cfg, s, run).hub.redis)
    decreases |run|
  {
    if |run| > 0 {
      if run[0].HubServes? { NoneFailedStep(cfg, s.hub, run[0].e); }
      NoneFailedRun(cfg, Act(cfg, s, run[0]), run[1..]);
    }
  }

  lemma RunCounts<C>(cfg: Config, run: seq<Action<C>>, ch: string)
    requires IsRun(cfg, Start(), run) && !After(cfg, Start(), run).hub.redis.closed
    ensures CountFollows(After(cfg, Start(), run).hub, ch)
  {
    EveryRunSound(cfg, run);
  }

  /** Before Close, in every run: a channel the hub does not have is not counted; one it has is
      counted once and is on the wire, or has count 0 because its last SUBSCRIBE failed. */
  lemma CountsAgree<C>(cfg: Config, run: seq<Action<C>>, ch: string)
    requires IsRun(cfg, Start(), run)
    ensures var s := After(cfg, Start(), run).hub;
            !s.redis.closed ==>
              && (ch in s.redis.counts <==> ch in s.channels)
              && (ch in s.channels ==>
                    var log := Log(s.redis, ch);
                    && |log| > 0 && log[|log| - 1].subscribe
                    && (log[|log| - 1].ok ==> s.redis.counts[ch] == 1 && OnWire(log))
                    && (!log[|log| - 1].ok ==> s.redis.counts[ch] == 0))
  {
    var s := After(cfg, Start(), run).hub;
    if !s.redis.closed {
      RunCounts(cfg, run, ch);
    }
  }

  /** Before Close, whatever SUBSCRIBE commands fail: as long as no UNSUBSCRIBE for the channel did,
      it is on the wire exactly if it is counted, that is if somebody uses it and the SUBSCRIBE of its
      first user succeeded. */
  lemma WireExactlyWhen<C>(cfg: Config, run: seq<Action<C>>, ch: string)
    requires IsRun(cfg, Start(), run)
    requires UnsubscribesSucceed(Log(After(cfg, Start(), run).hub.redis, ch))
    ensures var s := After(cfg, Start(), run).hub;
            var log := Log(s.redis, ch);
            !s.redis.closed ==>
              && (OnWire(log) <==> Count(s.redis, ch) == 1)
              && (OnWire(log) <==> ch in s.channels && |log| > 0 && log[|log| - 1].ok)
  {
    var s := After(cfg, Start(), run).hub;
    if !s.redis.closed {
      RunCounts(cfg, run, ch);
      WireAfterTurns(Log(s.redis, ch));
    }
  }

  /** When no command fails, the wire carries exactly the hub's channels. */
  lemma WireIsChannels<C>(cfg: Config, run: seq<Action<C>>, ch: string)
    requires IsRun(cfg, Start(), run)
    requires forall i | 0 <= i < |run| :: NoCommandFails(run[i])
    ensures var s := After(cfg, Start(), run).hub;
            !s.redis.closed ==>
              && (ch in s.channels <==> OnWire(Log(s.redis, ch)))
              && (ch in s.channels <==> Count(s.redis, ch) == 1)
  {
    NoneFailedRun(cfg, Start(), run);
    var s := After(cfg, Start(), run).hub;
    if !s.redis.closed {
      RunCounts(cfg, run, ch);
    }
  }

  lemma UnsubscribeAllOthers(r: Redis, gone: set<string>, fail: set<string>, ch: string)
    requires ch !in gone
    ensures Log(UnsubscribeAll(r, gone, fail), ch) == Log(r, ch)
    ensures Count(UnsubscribeAll(r, gone, fail), ch) == Count(r, ch)
  {
  }

  lemma NoRetryRegister<C>(cfg: Config, s: State<C>, c: C, fail: set<string>, ch: string)
    requires c in s.conns && ch in s.channels
    ensures Log(HandleRegister(cfg, s, c, fail).redis, ch) == Log(s.redis, ch)
    ensures Count(HandleRegister(cfg, s, c, fail).redis, ch) == Count(s.redis, ch)
  {
    var j := Join(s.(pending := s.pending - {c}), c);
    var a := AddSubscription(j, c, SessionChannel(s.conns[c].sessionKey), fail);
    assert Log(a.redis, ch) == Log(s.redis, ch) && Count(a.redis, ch) == Count(s.redis, ch) && ch in a.channels;
  }

  lemma NoRetry<C>(cfg: Config, s: State<C>, e: Event<C>, ch: string)
    requires Enabled(s, e) && ch in s.channels && ch in Step(cfg, s, e).channels
    ensures Log(Step(cfg, s, e).redis, ch) == Log(s.redis, ch)
    ensures Count(Step(cfg, s, e).redis, ch) == Count(s.redis, ch)
  {
    match e
    case Register(c, fail) => NoRetryRegister(cfg, s, c, fail, ch);
    case Unregister(c, fail) =>
      UnsubscribeAllOthers(s.redis, Emptied(s.channels, c, s.conns[c].subscribed) - {ch}, fail, ch);
      assert c in s.clients ==> ch !in Emptied(s.channels, c, s.conns[c].subscribed);
      assert c in s.clients ==> Emptied(s.channels, c, s.conns[c].subscribed) - {ch} == Emptied(s.channels, c, s.conns[c].subscribed);
    case ClientUnsubscribe(c, ch', fail) =>
      if c in s.clients && ch' in s.conns[c].subscribed {
        UnsubscribeAllOthers(s.redis, Emptied(s.channels, c, {ch'}), fail, ch);
      }
    case _ =>
  }

  /** Somebody is on the channel at every point of the run. */
  ghost predicate InUse<C>(cfg: Config, s: System<C>, run: seq<Action<C>>, ch: string)
    requires IsRun(cfg, s, run)
    decreases |run|
  {
    ch in s.hub.channels && (|run| == 0 || InUse(cfg, Act(cfg, s, run[0]), run[1..], ch))
  }

  /** As long as anybody stays on a channel, no command is issued for it and its count stays as it
      is: a SUBSCRIBE that failed is not repeated, however many clients join. */
  lemma {:induction false} NoRetryWhileInUse<C>(cfg: Config, s: System<C>, run: seq<Action<C>>, ch: string)
    requires IsRun(cfg, s, run) && InUse(cfg, s, run, ch)
    ensures Log(After(cfg, s, run).hub.redis, ch) == Log(s.hub.redis, ch)
    ensures Count(After(cfg, s, run).hub.redis, ch) == Count(s.hub.redis, ch)
    decreases |run|
  {
    if |run| > 0 {
      if run[0].HubServes? { NoRetry(cfg, s.hub, run[0].e, ch); }
      NoRetryWhileInUse(cfg, Act(cfg, s, run[0]), run[1..], ch);
    }
  }

  /** A channel that is off the wire stays off the wire until everybody has left it. */
  lemma DeafWhileInUse<C>(cfg: Config, s: System<C>, run: seq<Action<C>>, ch: string)
    requires IsRun(cfg, s, run) && InUse(cfg, s, run, ch)
    ensures OnWire(Log(After(cfg, s, run).hub.redis, ch)) <==> OnWire(Log(s.hub.redis, ch))
  {
    NoRetryWhileInUse(cfg, s, run, ch);
  }

  /** Connection `c` of user 1 is accepted and registered while the SUBSCRIBE for its control channel fails. */
  function FailedJoin<C>(c: C, key: string): seq<Action<C>> {
    [HubServes(PostRegister(c, 1, key, {})), HubServes(Register(c, {UserChannel(1)}))]
  }

  lemma TwoSteps<C>(cfg: Config, s: System<C>, a: Action<C>, b: Action<C>)
    requires Possible(s, a) && Possible(Act(cfg, s, a), b)
    ensures IsRun(cfg, s, [a, b]) && After(cfg, s, [a, b]) == Act(cfg, Act(cfg, s, a), b)
  {
    var run: seq<Action<C>> := [a, b];
    assert run[1..] == [b] && run[1..][1..] == [];
    assert IsRun(cfg, Act(cfg, s, a), run[1..]);
    assert After(cfg, Act(cfg, s, a), run[1..]) == Act(cfg, Act(cfg, s, a), b);
  }

  lemma AdmittedChannels<C>(s: State<C>, c: C, key: string)
    requires c in s.conns && s.conns[c] == Fresh(1, key, {}) && s.channels == map[] && s.redis == EMPTY
    ensures var ch := UserChannel(1);
            var fail := {ch};
            var t := AddSubscription(AddSubscription(Join(s, c), c, SessionChannel(key), fail), c, ch, fail);
            && ch in t.channels && Count(t.redis, ch) == 0 && Log(t.redis, ch) == [Cmd(true, false)]
            && !t.redis.closed
  {
    ControlNames(key, key, 1, 1);
  }

  /** The other case exists: after a failed SUBSCRIBE a channel is in use, counted 0 and off the wire. */
  lemma FailedSubscribeIsDeaf<C>(cfg: Config, c: C, key: string)
    requires cfg.maxTotal <= 0 && cfg.maxPerUser <= 0
    ensures IsRun(cfg, Start(), FailedJoin(c, key))
    ensures var s := After(cfg, Start(), FailedJoin(c, key)).hub;
            && c in s.clients && c in s.conns && s.conns[c].hist.unsubscribed == {}
            && !s.redis.closed && UserChannel(1) in s.channels
            && Count(s.redis, UserChannel(1)) == 0 && !OnWire(Log(s.redis, UserChannel(1)))
  {
    var s: System<C> := Start();
    var a, b := HubServes(PostRegister(c, 1, key, {})), HubServes(Register(c, {UserChannel(1)}));
    var s1 := Act(cfg, s, a);
    var joining := s1.hub.(pending := s1.hub.pending - {c});
    assert joining.conns[c] == Fresh(1, key, {});
    Admitted(joining, c, {UserChannel(1)});
    AdmittedChannels(joining, c, key);
    TwoSteps(cfg, s, a, b);
    OnWireStep([], Cmd(true, false));
  }

  // ---- Every command, and the count it leaves ----

  /** The channels whose command fails during the request. */
  function FailOf<C>(e: Event<C>): set<string> {
    match e
    case Register(_, fail) => fail
    case Unregister(_, fail) => fail
    case ClientSubscribe(_, _, fail) => fail
    case ClientUnsubscribe(_, _, fail) => fail
    case _ => {}
  }

  /** One command for a channel that gets its first user or loses its last, none otherwise, and none
      after Close. `used` and `used'` tell whether anybody is on the channel before and after. */
  ghost predicate Commanded(r: Redis, r': Redis, ch: string, used: bool, used': bool, ok: bool) {
    if r.closed || used == used' then Log(r', ch) == Log(r, ch) && Count(r', ch) == Count(r, ch)
    else if used' then Log(r', ch) == Log(r, ch) + [Cmd(true, ok)] && Count(r', ch) == (if ok then 1 else 0)
    else Log(r', ch) == Log(r, ch) + [Cmd(false, ok)] && ch !in r'.counts
  }

  /** What holds of one channel and its count before and after a request. */
  ghost predicate FollowsUse<C>(s: State<C>, t: State<C>, ch: string, fail: set<string>) {
    Commanded(s.redis, t.redis, ch, ch in s.channels, ch in t.channels, ch !in fail)
  }

  ghost predicate Known<C>(s: State<C>, ch: string) {
    !s.redis.closed ==> CountFollows(s, ch)
  }

  lemma AddCommands<C>(s: State<C>, c: C, joined: string, fail: set<string>, ch: string)
    requires c in s.conns && Known(s, ch)
    ensures FollowsUse(s, AddSubscription(s, c, joined, fail), ch, fail)
  {
  }

  lemma LeaveCommands<C>(s: State<C>, t: State<C>, c: C, chs: set<string>, fail: set<string>, ch: string)
    requires Known(s, ch)
    requires t.channels == Leave(s.channels, c, chs)
    requires t.redis == UnsubscribeAll(s.redis, Emptied(s.channels, c, chs), fail)
    ensures FollowsUse(s, t, ch, fail)
  {
    LeaveMembers(s.channels, c, chs, ch);
    assert ch in Emptied(s.channels, c, chs) <==> ch in s.channels && ch !in t.channels;
  }

  lemma OtherChannel<C>(s: State<C>, c: C, joined: string, fail: set<string>, ch: string)
    requires c in s.conns && ch != joined
    ensures var t := AddSubscription(s, c, joined, fail);
            && (ch in t.channels <==> ch in s.channels) && t.redis.closed == s.redis.closed
            && Log(t.redis, ch) == Log(s.redis, ch) && Count(t.redis, ch) == Count(s.redis, ch)
            && (ch in t.redis.counts <==> ch in s.redis.counts)
  {
  }

  /** The two joins of a registration concern different channels. */
  lemma TwoJoins<C>(s: State<C>, c: C, one: string, two: string, fail: set<string>, ch: string)
    requires c in s.conns && Known(s, ch) && one != two
    ensures FollowsUse(s, AddSubscription(AddSubscription(s, c, one, fail), c, two, fail), ch, fail)
  {
    var a := AddSubscription(s, c, one, fail);
    if ch == two {
      OtherChannel(s, c, one, fail, ch);
      AddCommands(a, c, two, fail, ch);
    } else {
      AddCommands(s, c, one, fail, ch);
      OtherChannel(a, c, two, fail, ch);
    }
  }

  lemma RegisterCommands<C>(cfg: Config, s: State<C>, c: C, fail: set<string>, ch: string)
    requires c in s.conns && Known(s, ch)
    ensures FollowsUse(s, HandleRegister(cfg, s, c, fail), ch, fail)
  {
    var s1, k := s.(pending := s.pending - {c}), s.conns[c];
    if !OverTotal(cfg, s1) && !OverUser(cfg, s1, k.userID) {
      ControlNames(k.sessionKey, k.sessionKey, k.userID, k.userID);
      TwoJoins(Join(s1, c), c, SessionChannel(k.sessionKey), UserChannel(k.userID), fail, ch);
    }
  }

  lemma ServedCommands<C>(cfg: Config, s: State<C>, e: Event<C>, ch: string)
    requires Enabled(s, e) && Known(s, ch)
    ensures FollowsUse(s, Step(cfg, s, e), ch, FailOf(e))
  {
    var t := Step(cfg, s, e);
    match e
    case Register(c, fail) => RegisterCommands(cfg, s, c, fail, ch);
    case Unregister(c, fail) =>
      if c in s.clients { LeaveCommands(s, t, c, s.conns[c].subscribed, fail, ch); }
    case ClientSubscribe(c, joined, fail) =>
      if c in s.clients && ValidName(joined) && !Reserved(joined) && joined in s.conns[c].allowed {
        AddCommands(s, c, joined, fail, ch);
      }
    case ClientUnsubscribe(c, left, fail) =>
      if c in s.clients && left in s.conns[c].subscribed { LeaveCommands(s, t, c, {left}, fail, ch); }
    case _ =>
  }

  lemma AddClosed<C>(s: State<C>, c: C, ch: string, fail: set<string>)
    requires c in s.conns
    ensures c in AddSubscription(s, c, ch, fail).conns
    ensures AddSubscription(s, c, ch, fail).redis.closed == s.redis.closed
  {
  }

  lemma RegisterClosed<C>(cfg: Config, s: State<C>, c: C, fail: set<string>)
    requires c in s.conns
    ensures HandleRegister(cfg, s, c, fail).redis.closed == s.redis.closed
  {
    var s1, k := s.(pending := s.pending - {c}), s.conns[c];
    if !OverTotal(cfg, s1) && !OverUser(cfg, s1, k.userID) {
      AddClosed(Join(s1, c), c, SessionChannel(k.sessionKey), fail);
      AddClosed(AddSubscription(Join(s1, c), c, SessionChannel(k.sessionKey), fail), c, UserChannel(k.userID), fail);
    }
  }

  lemma ServedClosed<C>(cfg: Config, s: State<C>, e: Event<C>)
    requires Enabled(s, e)
    ensures Step(cfg, s, e).redis.closed <==> s.redis.closed || e.CloseManager?
  {
    match e
    case Register(c, fail) => RegisterClosed(cfg, s, c, fail);
    case _ =>
  }

  /** docs/docs/channels.md: one SUBSCRIBE however many clients share a channel, and one UNSUBSCRIBE when
      the last of them leaves. In every run an action issues a command for a channel exactly when the
      channel gets its first user or loses its last, and after Close none at all; with a failed
      SUBSCRIBE the count is left at 0. */
  lemma CommandsFollowUse<C>(cfg: Config, run: seq<Action<C>>, a: Action<C>, ch: string)
    requires IsRun(cfg, Start(), run) && Possible(After(cfg, Start(), run), a)
    ensures var s, t := After(cfg, Start(), run).hub, Act(cfg, After(cfg, Start(), run), a).hub;
            && FollowsUse(s, t, ch, if a.HubServes? then FailOf(a.e) else {})
            && (t.redis.closed <==> s.redis.closed || a == HubServes(CloseManager))
  {
    var s := After(cfg, Start(), run);
    if !s.hub.redis.closed { RunCounts(cfg, run, ch); }
    if a.HubServes? {
      ServedCommands(cfg, s.hub, a.e, ch);
      ServedClosed(cfg, s.hub, a.e);
    }
  }
}
