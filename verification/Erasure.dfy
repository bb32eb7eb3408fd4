/** Non-interference: with the caps off, a run and the same run without anything one connection
    did differ only in that connection; and once it has left, in nothing. */
module Erasure {
  import opened ChannelNames
  import opened HubModel
  import opened Options
  import opened HubInvariant
  import opened GatewaySystem
  import opened SystemInvariant
  import opened Wire

  /** An index without `x`: buckets that held nobody else disappear. */
  function Drop<K, C>(m: map<K, set<C>>, x: C): map<K, set<C>> {
    map k | k in m && m[k] - {x} != {} :: m[k] - {x}
  }

  /** `t` is `s` as if `x` had never been there. The commands to Redis are not compared: the first
      and the last client on a channel issue them, and that may have been `x`. */
  ghost predicate HubWithout<C>(t: State<C>, s: State<C>, x: C) {
    && t.pending == s.pending - {x}
    && t.clients == s.clients - {x}
    && t.channels == Drop(s.channels, x)
    && t.userClients == Drop(s.userClients, x)
    && t.conns == s.conns - {x}
    && t.posts == s.posts[x := 0]
    && t.redis.closed == s.redis.closed
  }

  ghost predicate SystemWithout<C>(t: System<C>, s: System<C>, x: C) {
    && HubWithout(t.hub, s.hub, x)
    && t.pumps == s.pumps - {x}
    && t.stream == s.stream && t.incoming == s.incoming
    && t.arrived == s.arrived && t.processed == s.processed
    && |t.audience| == |s.audience|
    && forall i | 0 <= i < |t.audience| :: t.audience[i] == s.audience[i] - {x}
  }

  ghost predicate By<C>(a: Action<C>, x: C) {
    match a
    case HubServes(e) => Concerns(e, x)
    case PumpWakes(c, _) => c == x
    case _ => false
  }

  ghost function Erase<C>(run: seq<Action<C>>, x: C): seq<Action<C>> {
    if |run| == 0 then []
    else (if By(run[0], x) then [] else [run[0]]) + Erase(run[1..], x)
  }

  // ---- How the index operations commute with leaving `x` out ----

  lemma UpdateWithout<C, V>(m: map<C, V>, c: C, v: V, x: C)
    ensures m[c := v] - {x} == if c == x then m - {x} else (m - {x})[c := v]
  {
  }

  lemma DropMembers<K, C>(m: map<K, set<C>>, x: C, k: K)
    ensures Members(Drop(m, x), k) == Members(m, k) - {x}
  {
  }

  lemma DropAdd<K, C>(m: map<K, set<C>>, x: C, k: K, c: C)
    ensures Drop(m[k := Members(m, k) + {c}], x) ==
            if c == x then Drop(m, x) else Drop(m, x)[k := Members(Drop(m, x), k) + {c}]
  {
    DropMembers(m, x, k);
    if c == x {
      assert (Members(m, k) + {x}) - {x} == Members(m, k) - {x};
    } else {
      assert (Members(m, k) + {c}) - {x} == (Members(m, k) - {x}) + {c};
    }
  }

  lemma DropLeave<K, C>(m: map<K, set<C>>, x: C, c: C, ks: set<K>)
    ensures Drop(Leave(m, c, ks), x) == if c == x then Drop(m, x) else Leave(Drop(m, x), c, ks)
  {
    forall k | k in m ensures m[k] - {c} - {x} == m[k] - {x} - {c} {
    }
    if c == x {
      forall k | k in m ensures m[k] - {x} - {x} == m[k] - {x} {
      }
      forall k | k in m ensures (k in Drop(Leave(m, x, ks), x) <==> k in Drop(m, x)) {
        LeaveMembers(m, x, ks, k);
      }
      assert Drop(Leave(m, c, ks), x) == Drop(m, x);
    } else {
      assert Drop(Leave(m, c, ks), x) == Leave(Drop(m, x), c, ks);
    }
  }

  lemma DropDeliver<C>(s: State<C>, t: State<C>, x: C, to: set<C>, f: Frame)
    requires HubWithout(t, s, x)
    ensures HubWithout(Deliver(t, to - {x}, f), Deliver(s, to, f), x)
  {
  }

  // ---- Requests ----

  lemma OwnAddWithout<C>(s: State<C>, t: State<C>, x: C, ch: string, fail: set<string>)
    requires HubWithout(t, s, x) && x in s.conns
    ensures HubWithout(t, AddSubscription(s, x, ch, fail), x)
  {
    DropAdd(s.channels, x, ch, x);
    UpdateWithout(s.conns, x, AddSubscription(s, x, ch, fail).conns[x], x);
  }

  lemma AddWithout<C>(s: State<C>, t: State<C>, x: C, c: C, ch: string, fail: set<string>)
    requires HubWithout(t, s, x) && c in s.conns
    ensures c == x ==> HubWithout(t, AddSubscription(s, c, ch, fail), x)
    ensures c != x ==> HubWithout(AddSubscription(t, c, ch, fail), AddSubscription(s, c, ch, fail), x)
  {
    if c == x {
      OwnAddWithout(s, t, x, ch, fail);
    } else {
      DropAdd(s.channels, x, ch, c);
      assert t.conns[c] == s.conns[c];
      UpdateWithout(s.conns, c, AddSubscription(s, c, ch, fail).conns[c], x);
    }
  }

  lemma JoinWithout<C>(s: State<C>, t: State<C>, x: C, c: C)
    requires HubWithout(t, s, x) && c in s.conns
    ensures c == x ==> HubWithout(t, Join(s, c), x)
    ensures c != x ==> HubWithout(Join(t, c), Join(s, c), x)
  {
    DropAdd(s.userClients, x, s.conns[c].userID, c);
  }

  lemma RegisterWithout<C>(cfg: Config, s: State<C>, t: State<C>, x: C, c: C, fail: set<string>)
    requires cfg.maxTotal <= 0 && cfg.maxPerUser <= 0
    requires HubWithout(t, s, x) && c in s.conns
    ensures c == x ==> HubWithout(t, HandleRegister(cfg, s, c, fail), x)
    ensures c != x ==> HubWithout(HandleRegister(cfg, t, c, fail), HandleRegister(cfg, s, c, fail), x)
  {
    var k := s.conns[c];
    var s1 := s.(pending := s.pending - {c});
    var t1 := if c == x then t else t.(pending := t.pending - {c});
    assert HubWithout(t1, s1, x);
    JoinWithout(s1, t1, x, c);
    var s2 := Join(s1, c);
    var t2 := if c == x then t1 else Join(t1, c);
    AddWithout(s2, t2, x, c, SessionChannel(k.sessionKey), fail);
    var s3 := AddSubscription(s2, c, SessionChannel(k.sessionKey), fail);
    var t3 := if c == x then t2 else AddSubscription(t2, c, SessionChannel(k.sessionKey), fail);
    AddWithout(s3, t3, x, c, UserChannel(k.userID), fail);
  }

  lemma OwnUnregisterWithout<C>(s: State<C>, t: State<C>, x: C, fail: set<string>)
    requires HubWithout(t, s, x) && x in s.conns
    ensures HubWithout(t, HandleUnregister(s, x, fail), x)
  {
    DropLeave(s.channels, x, x, s.conns[x].subscribed);
    DropLeave(s.userClients, x, x, {s.conns[x].userID});
    assert (s.posts - multiset{x})[x := 0] == s.posts[x := 0];
    assert s.conns[x := Depart(s.conns[x])] - {x} == s.conns - {x};
  }

  lemma OtherUnregisterWithout<C>(s: State<C>, t: State<C>, x: C, c: C, fail: set<string>)
    requires HubWithout(t, s, x) && c in s.conns && c != x
    ensures HubWithout(HandleUnregister(t, c, fail), HandleUnregister(s, c, fail), x)
  {
    DropLeave(s.channels, x, c, s.conns[c].subscribed);
    DropLeave(s.userClients, x, c, {s.conns[c].userID});
    assert t.conns[c] == s.conns[c];
    assert (s.posts - multiset{c})[x := 0] == t.posts - multiset{c};
    assert s.conns[c := Depart(s.conns[c])] - {x} == t.conns[c := Depart(t.conns[c])];
    assert s.clients - {c} - {x} == t.clients - {c};
  }

  lemma ErrorWithout<C>(s: State<C>, t: State<C>, x: C, c: C, f: Frame)
    requires HubWithout(t, s, x)
    ensures c == x ==> HubWithout(t, Deliver(s, {c}, f), x)
    ensures c != x ==> HubWithout(Deliver(t, {c}, f), Deliver(s, {c}, f), x)
  {
  }

  lemma SubscribeWithout<C>(s: State<C>, t: State<C>, x: C, c: C, ch: string, fail: set<string>)
    requires HubWithout(t, s, x) && c in s.conns
    ensures c == x ==> HubWithout(t, HandleSubscribe(s, c, ch, fail), x)
    ensures c != x ==> HubWithout(HandleSubscribe(t, c, ch, fail), HandleSubscribe(s, c, ch, fail), x)
  {
    AddWithout(s, t, x, c, ch, fail);
    ErrorWithout(s, t, x, c, Error(ch, "invalid_channel"));
    ErrorWithout(s, t, x, c, Error(ch, "forbidden"));
  }

  lemma OwnUnsubscribeWithout<C>(s: State<C>, t: State<C>, x: C, ch: string, fail: set<string>)
    requires HubWithout(t, s, x) && x in s.conns
    ensures HubWithout(t, HandleUnsubscribe(s, x, ch, fail), x)
  {
    DropLeave(s.channels, x, x, {ch});
    var k := NoteUnsubscribe(s.conns[x], ch);
    UpdateWithout(s.conns, x, k, x);
    UpdateWithout(s.conns, x, k.(subscribed := k.subscribed - {ch}), x);
  }

  lemma OtherUnsubscribeWithout<C>(s: State<C>, t: State<C>, x: C, c: C, ch: string, fail: set<string>)
    requires HubWithout(t, s, x) && c in s.conns && c != x
    ensures HubWithout(HandleUnsubscribe(t, c, ch, fail), HandleUnsubscribe(s, c, ch, fail), x)
  {
    DropLeave(s.channels, x, c, {ch});
    assert t.conns[c] == s.conns[c];
    var k := NoteUnsubscribe(s.conns[c], ch);
    UpdateWithout(s.conns, c, k, x);
    UpdateWithout(s.conns, c, k.(subscribed := k.subscribed - {ch}), x);
  }

  lemma IncomingWithout<C>(s: State<C>, t: State<C>, x: C, msg: Message)
    requires HubWithout(t, s, x)
    ensures HubWithout(HandleIncoming(t, msg), HandleIncoming(s, msg), x)
    ensures Members(t.channels, msg.channel) == Members(s.channels, msg.channel) - {x}
  {
    DropMembers(s.channels, x, msg.channel);
    var to := Members(s.channels, msg.channel);
    DropDeliver(s, t, x, to, Data(msg));
    var r := Reason(SESSION_REVOKED, "session_revoked");
    assert SignalAll(t.conns, to - {x}, r) == SignalAll(s.conns, to, r) - {x};
  }

  lemma StepWithout<C>(cfg: Config, s: State<C>, t: State<C>, x: C, e: Event<C>)
    requires cfg.maxTotal <= 0 && cfg.maxPerUser <= 0
    requires HubWithout(t, s, x) && Enabled(s, e)
    ensures Concerns(e, x) ==> HubWithout(t, Step(cfg, s, e), x)
    ensures !Concerns(e, x) ==> Enabled(t, e) && HubWithout(Step(cfg, t, e), Step(cfg, s, e), x)
  {
    match e
    case PostRegister(c, u, key, allowed) =>
      assert Step(cfg, s, e).conns - {x} ==
             if c == x then s.conns - {x} else (s.conns - {x})[c := Fresh(u, key, allowed)];
    case Register(c, fail) => RegisterWithout(cfg, s, t, x, c, fail);
    case PostUnregister(c) =>
    case Unregister(c, fail) =>
      if c == x { OwnUnregisterWithout(s, t, x, fail); } else { OtherUnregisterWithout(s, t, x, c, fail); }
    case ClientSubscribe(c, ch, fail) => SubscribeWithout(s, t, x, c, ch, fail);
    case ClientUnsubscribe(c, ch, fail) =>
      if c == x { OwnUnsubscribeWithout(s, t, x, ch, fail); } else { OtherUnsubscribeWithout(s, t, x, c, ch, fail); }
    case Incoming(msg) => IncomingWithout(s, t, x, msg);
    case CloseManager =>
  }

  lemma PumpWithout<C>(cfg: Config, s: System<C>, t: System<C>, x: C, a: Action<C>)
    requires SystemWithout(t, s, x) && Possible(s, a)
    requires a.PumpWakes?
    ensures a.c == x ==> SystemWithout(t, Act(cfg, s, a), x)
    ensures a.c != x ==> Possible(t, a) && SystemWithout(Act(cfg, t, a), Act(cfg, s, a), x)
  {
  }

  lemma ServedWithout<C>(cfg: Config, s: System<C>, t: System<C>, x: C, e: Event<C>)
    requires cfg.maxTotal <= 0 && cfg.maxPerUser <= 0
    requires SystemWithout(t, s, x) && Possible(s, HubServes(e))
    ensures Concerns(e, x) ==> SystemWithout(t, Act(cfg, s, HubServes(e)), x)
    ensures !Concerns(e, x) ==>
              Possible(t, HubServes(e)) && SystemWithout(Act(cfg, t, HubServes(e)), Act(cfg, s, HubServes(e)), x)
  {
    StepWithout(cfg, s.hub, t.hub, x, e);
    if e.PostRegister? { UpdateWithout(s.pumps, e.c, Pump(true, [], None), x); }
  }

  lemma ActWithout<C>(cfg: Config, s: System<C>, t: System<C>, x: C, a: Action<C>)
    requires cfg.maxTotal <= 0 && cfg.maxPerUser <= 0
    requires SystemWithout(t, s, x) && Possible(s, a)
    ensures By(a, x) ==> SystemWithout(t, Act(cfg, s, a), x)
    ensures !By(a, x) ==> Possible(t, a) && SystemWithout(Act(cfg, t, a), Act(cfg, s, a), x)
  {
    match a
    case HubServes(_) => ServedWithout(cfg, s, t, x, a.e);
    case HubReceives => IncomingWithout(s.hub, t.hub, x, s.incoming[0]);
    case Arrive(_, _) =>
    case Forward =>
    case PumpWakes(_, _) => PumpWithout(cfg, s, t, x, a);
  }

  /** The run without `x` is a run, and ends in the same state but for `x`: every other connection
      has the same subscriptions, the same queue, the same mailbox, and its pump took the same frames. */
  lemma {:induction false} NonInterference<C>(cfg: Config, s: System<C>, t: System<C>, x: C, run: seq<Action<C>>)
    requires cfg.maxTotal <= 0 && cfg.maxPerUser <= 0
    requires SystemWithout(t, s, x) && IsRun(cfg, s, run)
    ensures IsRun(cfg, t, Erase(run, x))
    ensures SystemWithout(After(cfg, t, Erase(run, x)), After(cfg, s, run), x)
    decreases |run|
  {
    if |run| > 0 {
      var a, s1 := run[0], Act(cfg, s, run[0]);
      ActWithout(cfg, s, t, x, a);
      if By(a, x) {
        NonInterference(cfg, s1, t, x, run[1..]);
        assert Erase(run, x) == Erase(run[1..], x);
      } else {
        NonInterference(cfg, s1, Act(cfg, t, a), x, run[1..]);
        assert Erase(run, x)[0] == a && Erase(run, x)[1..] == Erase(run[1..], x);
      }
    }
  }

  lemma {:induction false} EraseKeepsSuccess<C>(run: seq<Action<C>>, x: C)
    requires forall i | 0 <= i < |run| :: NoCommandFails(run[i])
    ensures forall i | 0 <= i < |Erase(run, x)| :: NoCommandFails(Erase(run, x)[i])
  {
    if |run| > 0 {
      EraseKeepsSuccess(run[1..], x);
    }
  }

  lemma CountsDetermined<C>(s: State<C>)
    requires CountsFollow(s) && NoneFailed(s.redis) && !s.redis.closed
    ensures s.redis.counts == map ch | ch in s.channels :: 1
  {
    forall ch: string ensures ch in s.redis.counts <==> ch in s.channels {
      assert CountFollows(s, ch);
    }
    forall ch | ch in s.channels ensures s.redis.counts[ch] == 1 {
      assert CountFollows(s, ch);
    }
  }

  lemma DropAbsent<K, C>(m: map<K, set<C>>, x: C)
    requires forall k | k in m :: m[k] != {} && x !in m[k]
    ensures Drop(m, x) == m
  {
    forall k | k in m ensures m[k] - {x} == m[k] {
    }
  }

  lemma NothingWithout<C>(x: C)
    ensures SystemWithout(Start(), Start(), x)
  {
  }

  lemma AbsentWithout<C>(s: State<C>, t: State<C>, x: C)
    requires Indexed(s) && HubWithout(t, s, x) && x !in s.clients
    ensures t.clients == s.clients && t.channels == s.channels && t.userClients == s.userClients
  {
    forall u | u in s.userClients ensures s.userClients[u] != {} && x !in s.userClients[u] {
      assert s.userClients[u] <= s.clients;
    }
    DropAbsent(s.channels, x);
    DropAbsent(s.userClients, x);
  }

  /** A departed client leaves no trace: deleting everything it did from the run gives the very same
      clients, channels and users, and everybody else's queues and mailboxes. */
  lemma DepartedLeavesNoTrace<C>(cfg: Config, run: seq<Action<C>>, x: C)
    requires cfg.maxTotal <= 0 && cfg.maxPerUser <= 0
    requires IsRun(cfg, Start(), run) && x !in After(cfg, Start(), run).hub.clients
    ensures IsRun(cfg, Start(), Erase(run, x))
    ensures var s, t := After(cfg, Start(), run).hub, After(cfg, Start(), Erase(run, x)).hub;
            && t.clients == s.clients && t.channels == s.channels && t.userClients == s.userClients
            && t.conns == s.conns - {x}
  {
    NothingWithout(x);
    NonInterference(cfg, Start(), Start(), x, run);
    EveryRunSound(cfg, run);
    AbsentWithout(After(cfg, Start(), run).hub, After(cfg, Start(), Erase(run, x)).hub, x);
  }

  /** With every command succeeding the refcounts are the same too. */
  lemma DepartedLeavesNoCount<C>(cfg: Config, run: seq<Action<C>>, x: C)
    requires cfg.maxTotal <= 0 && cfg.maxPerUser <= 0
    requires IsRun(cfg, Start(), run) && x !in After(cfg, Start(), run).hub.clients
    requires forall i | 0 <= i < |run| :: NoCommandFails(run[i])
    requires !After(cfg, Start(), run).hub.redis.closed
    ensures IsRun(cfg, Start(), Erase(run, x))
    ensures After(cfg, Start(), Erase(run, x)).hub.redis.counts == After(cfg, Start(), run).hub.redis.counts
  {
    NothingWithout(x);
    NonInterference(cfg, Start(), Start(), x, run);
    DepartedLeavesNoTrace(cfg, run, x);
    EveryRunSound(cfg, run);
    EveryRunSound(cfg, Erase(run, x));
    EraseKeepsSuccess(run, x);
    NoneFailedRun(cfg, Start(), run);
    NoneFailedRun(cfg, Start(), Erase(run, x));
    CountsDetermined(After(cfg, Start(), run).hub);
    CountsDetermined(After(cfg, Start(), Erase(run, x)).hub);
  }
}
