/** What every handler keeps: the four indexes agree, the refcounts follow the channel index,
    the connection caps hold. */
module HubInvariant {
  import opened ChannelNames
  import opened RedisModel
  import opened HubModel

  /** `channels` and each client's `subscribed` are two views of one relation, `userClients` is
      the partition of `clients` by user, and no bucket is empty. */
  ghost predicate Indexed<C>(s: State<C>) {
    && s.clients <= s.conns.Keys
    && s.pending <= s.conns.Keys
    && s.pending !! s.clients
    && (forall c | c in s.pending :: s.conns[c].subscribed == {})
    && (forall ch | ch in s.channels :: s.channels[ch] != {} && s.channels[ch] <= s.clients)
    && (forall c, ch | c in s.clients :: ch in s.conns[c].subscribed <==> c in Members(s.channels, ch))
    && (forall u | u in s.userClients :: s.userClients[u] != {} && s.userClients[u] <= s.clients)
    && (forall c, u | c in s.clients :: s.conns[c].userID == u <==> c in Members(s.userClients, u))
  }

  /** The indexes only look at who is registered, on what, for which user. */
  ghost predicate SameIndex<C>(s: State<C>, t: State<C>) {
    && s.clients == t.clients && s.pending == t.pending
    && s.channels == t.channels && s.userClients == t.userClients
    && s.conns.Keys == t.conns.Keys
    && forall c | c in s.conns ::
         s.conns[c].subscribed == t.conns[c].subscribed && s.conns[c].userID == t.conns[c].userID
  }

  lemma AddSubscriptionIndexed<C>(s: State<C>, c: C, ch: string, fail: set<string>)
    requires Indexed(s) && c in s.clients
    ensures Indexed(AddSubscription(s, c, ch, fail))
  {
    var t := AddSubscription(s, c, ch, fail);
    forall d, ch' | d in t.clients
      ensures ch' in t.conns[d].subscribed <==> d in Members(t.channels, ch')
    {
      assert ch' in s.conns[d].subscribed <==> d in Members(s.channels, ch');
    }
    assert forall d | d in t.clients :: t.conns[d].userID == s.conns[d].userID;
  }

  lemma JoinIndexed<C>(s: State<C>, c: C)
    requires Indexed(s) && c in s.conns && c !in s.clients && c !in s.pending && s.conns[c].subscribed == {}
    ensures Indexed(Join(s, c))
  {
    var t := Join(s, c);
    forall d, u | d in t.clients
      ensures t.conns[d].userID == u <==> d in Members(t.userClients, u)
    {
      if d in s.clients {
        assert s.conns[d].userID == u <==> d in Members(s.userClients, u);
      } else {
        assert d == c && d !in Members(s.userClients, u);
      }
    }
    forall d, ch | d in t.clients
      ensures ch in t.conns[d].subscribed <==> d in Members(t.channels, ch)
    {
      if d !in s.clients { assert d !in Members(s.channels, ch); }
    }
  }

  lemma RegisterIndexed<C>(cfg: Config, s: State<C>, c: C, fail: set<string>)
    requires Indexed(s) && c in s.pending
    ensures Indexed(HandleRegister(cfg, s, c, fail))
  {
    var s1 := s.(pending := s.pending - {c});
    var k := s.conns[c];
    if OverTotal(cfg, s1) || OverUser(cfg, s1, k.userID) {
      assert SameIndex(s1, HandleRegister(cfg, s, c, fail));
    } else {
      JoinIndexed(s1, c);
      AddSubscriptionIndexed(Join(s1, c), c, SessionChannel(k.sessionKey), fail);
      AddSubscriptionIndexed(AddSubscription(Join(s1, c), c, SessionChannel(k.sessionKey), fail),
                             c, UserChannel(k.userID), fail);
    }
  }

  /** Who is left in a bucket after `c` leaves. */
  lemma LeaveMembers<K, C>(m: map<K, set<C>>, c: C, ks: set<K>, k: K)
    ensures Members(Leave(m, c, ks), k) == if k in ks then Members(m, k) - {c} else Members(m, k)
    ensures k in Leave(m, c, ks) ==> k in m
    ensures k in ks ==> (k in Leave(m, c, ks) <==> Members(m, k) - {c} != {})
  {
  }

  lemma UnregisterIndexed<C>(s: State<C>, c: C, fail: set<string>)
    requires Indexed(s) && c in s.conns
    ensures Indexed(HandleUnregister(s, c, fail))
  {
    var t := HandleUnregister(s, c, fail);
    if c in s.clients {
      forall ch ensures Members(t.channels, ch) == Members(s.channels, ch) - {c} {
        LeaveMembers(s.channels, c, s.conns[c].subscribed, ch);
        assert ch in s.conns[c].subscribed <==> c in Members(s.channels, ch);
      }
      forall u ensures Members(t.userClients, u) == Members(s.userClients, u) - {c} {
        LeaveMembers(s.userClients, c, {s.conns[c].userID}, u);
        assert s.conns[c].userID == u <==> c in Members(s.userClients, u);
      }
      forall ch | ch in t.channels ensures t.channels[ch] != {} && t.channels[ch] <= t.clients {
        assert t.channels[ch] == Members(s.channels, ch) - {c};
      }
      forall u | u in t.userClients ensures t.userClients[u] != {} && t.userClients[u] <= t.clients {
        assert t.userClients[u] == Members(s.userClients, u) - {c};
      }
    }
  }

  lemma UnsubscribeIndexed<C>(s: State<C>, c: C, ch: string, fail: set<string>)
    requires Indexed(s) && c in s.conns
    ensures Indexed(HandleUnsubscribe(s, c, ch, fail))
  {
    var t := HandleUnsubscribe(s, c, ch, fail);
    if c in s.clients && ch in s.conns[c].subscribed {
      forall d, ch' | d in t.clients
        ensures ch' in t.conns[d].subscribed <==> d in Members(t.channels, ch')
      {
        LeaveMembers(s.channels, c, {ch}, ch');
        assert ch' in s.conns[d].subscribed <==> d in Members(s.channels, ch');
      }
    }
  }

  lemma SameIndexIndexed<C>(s: State<C>, t: State<C>)
    requires Indexed(s) && SameIndex(s, t)
    ensures Indexed(t)
  {
  }

  lemma PostRegisterIndexed<C>(cfg: Config, s: State<C>, e: Event<C>)
    requires Indexed(s) && Enabled(s, e) && e.PostRegister?
    ensures Indexed(Step(cfg, s, e))
  {
  }

  lemma SubscribeIndexed<C>(s: State<C>, c: C, ch: string, fail: set<string>)
    requires Indexed(s) && c in s.conns
    ensures Indexed(HandleSubscribe(s, c, ch, fail))
  {
    if c in s.clients && ValidName(ch) && !Reserved(ch) && ch in s.conns[c].allowed {
      AddSubscriptionIndexed(s, c, ch, fail);
    } else {
      SameIndexIndexed(s, HandleSubscribe(s, c, ch, fail));
    }
  }

  /** Every handler keeps the indexes in agreement. */
  lemma StepIndexed<C>(cfg: Config, s: State<C>, e: Event<C>)
    requires Indexed(s) && Enabled(s, e)
    ensures Indexed(Step(cfg, s, e))
  {
    var t := Step(cfg, s, e);
    match e
    case PostRegister(_, _, _, _) => PostRegisterIndexed(cfg, s, e);
    case Register(c, fail) => RegisterIndexed(cfg, s, c, fail);
    case Unregister(c, fail) => UnregisterIndexed(s, c, fail);
    case ClientSubscribe(c, ch, fail) => SubscribeIndexed(s, c, ch, fail);
    case ClientUnsubscribe(c, ch, fail) => UnsubscribeIndexed(s, c, ch, fail);
    case _ => SameIndexIndexed(s, t);
  }

  // ---- The refcounts under the hub ----

  ghost predicate CountFollows<C>(s: State<C>, ch: string) {
    var log := Log(s.redis, ch);
    InTurn(log) &&
    if ch in s.channels then
      && |log| % 2 == 1
      && ch in s.redis.counts && s.redis.counts[ch] == (if log[|log| - 1].ok then 1 else 0)
    else
      ch !in s.redis.counts && |log| % 2 == 0
  }

  /** Until the subscriber is closed: the channels it counts are the channels of the hub, each
      channel saw SUBSCRIBE and UNSUBSCRIBE in turn, and the last command issued for a channel of the
      hub was a SUBSCRIBE, which succeeded exactly if the count is 1 and failed exactly if it is 0. */
  ghost predicate CountsFollow<C>(s: State<C>) {
    !s.redis.closed ==> forall ch: string :: CountFollows(s, ch)
  }

  lemma SameChannelsCounts<C>(s: State<C>, t: State<C>)
    requires CountsFollow(s) && s.channels == t.channels && s.redis == t.redis
    ensures CountsFollow(t)
  {
    if !t.redis.closed {
      forall ch: string ensures CountFollows(t, ch) {
        assert CountFollows(s, ch);
      }
    }
  }

  lemma AddSubscriptionCounts<C>(s: State<C>, c: C, ch: string, fail: set<string>)
    requires CountsFollow(s) && c in s.conns
    ensures CountsFollow(AddSubscription(s, c, ch, fail))
  {
    var t := AddSubscription(s, c, ch, fail);
    if !t.redis.closed {
      forall x: string ensures CountFollows(t, x) {
        assert CountFollows(s, x);
      }
    }
  }

  /** Leaving channels and unsubscribing from those left empty. */
  lemma LeaveCounts<C>(s: State<C>, t: State<C>, c: C, chs: set<string>, fail: set<string>)
    requires CountsFollow(s)
    requires t.channels == Leave(s.channels, c, chs)
    requires t.redis == UnsubscribeAll(s.redis, Emptied(s.channels, c, chs), fail)
    ensures CountsFollow(t)
  {
    if !t.redis.closed {
      var gone := Emptied(s.channels, c, chs);
      forall x: string ensures CountFollows(t, x) {
        assert CountFollows(s, x);
        assert x in Released(s.redis, gone) <==> x in gone;
      }
    }
  }

  lemma StepCounts<C>(cfg: Config, s: State<C>, e: Event<C>)
    requires CountsFollow(s) && Enabled(s, e)
    ensures CountsFollow(Step(cfg, s, e))
  {
    var t := Step(cfg, s, e);
    match e
    case Register(c, fail) =>
      var s1, k := s.(pending := s.pending - {c}), s.conns[c];
      if OverTotal(cfg, s1) || OverUser(cfg, s1, k.userID) {
        SameChannelsCounts(s, t);
      } else {
        SameChannelsCounts(s, Join(s1, c));
        AddSubscriptionCounts(Join(s1, c), c, SessionChannel(k.sessionKey), fail);
        AddSubscriptionCounts(AddSubscription(Join(s1, c), c, SessionChannel(k.sessionKey), fail),
                              c, UserChannel(k.userID), fail);
      }
    case Unregister(c, fail) =>
      if c in s.clients { LeaveCounts(s, t, c, s.conns[c].subscribed, fail); } else { SameChannelsCounts(s, t); }
    case ClientSubscribe(c, ch, fail) =>
      if c in s.clients && ValidName(ch) && !Reserved(ch) && ch in s.conns[c].allowed {
        AddSubscriptionCounts(s, c, ch, fail);
      } else {
        SameChannelsCounts(s, t);
      }
    case ClientUnsubscribe(c, ch, fail) =>
      if c in s.clients && ch in s.conns[c].subscribed { LeaveCounts(s, t, c, {ch}, fail); } else { SameChannelsCounts(s, t); }
    case CloseManager =>
    case _ => SameChannelsCounts(s, t);
  }

  // ---- The caps ----

  ghost predicate Capped<C>(cfg: Config, s: State<C>) {
    && (cfg.maxTotal > 0 ==> |s.clients| <= cfg.maxTotal)
    && (cfg.maxPerUser > 0 ==> forall u | u in s.userClients :: |s.userClients[u]| <= cfg.maxPerUser)
  }

  lemma RegisterCapped<C>(cfg: Config, s: State<C>, c: C, fail: set<string>)
    requires Capped(cfg, s) && c in s.conns
    ensures Capped(cfg, HandleRegister(cfg, s, c, fail))
  {
    var t, k := HandleRegister(cfg, s, c, fail), s.conns[c];
    var s1 := s.(pending := s.pending - {c});
    if !OverTotal(cfg, s1) && !OverUser(cfg, s1, k.userID) {
      var j := Join(s1, c);
      var a := AddSubscription(j, c, SessionChannel(k.sessionKey), fail);
      assert t == AddSubscription(a, c, UserChannel(k.userID), fail);
      assert t.clients == s.clients + {c};
      assert t.userClients == s.userClients[k.userID := Members(s.userClients, k.userID) + {c}];
    }
  }

  lemma UnregisterCapped<C>(cfg: Config, s: State<C>, c: C, fail: set<string>)
    requires Capped(cfg, s) && c in s.conns
    ensures Capped(cfg, HandleUnregister(s, c, fail))
  {
  }

  lemma StepCapped<C>(cfg: Config, s: State<C>, e: Event<C>)
    requires Capped(cfg, s) && Enabled(s, e)
    ensures Capped(cfg, Step(cfg, s, e))
  {
    var t := Step(cfg, s, e);
    match e
    case Register(c, fail) => RegisterCapped(cfg, s, c, fail);
    case Unregister(c, fail) => UnregisterCapped(cfg, s, c, fail);
    case _ => assert t.clients == s.clients && t.userClients == s.userClients;
  }
}
