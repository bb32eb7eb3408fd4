/** The hub object of gateway/hub.go. Each handler is the function of HubModel with its name, on
    `View()`; loops over Go maps serve their members in whatever order they come up. */
module Broker {
  import opened ChannelNames
  import opened RedisModel
  import opened HubModel
  import opened Options
  import opened HubInvariant
  import opened ServingOrder
  import opened SystemInvariant
  import opened Connections
  import opened Subscriber

  /** What the handlers rely on: the indexes agree, and no queue still in use is closed. */
  ghost predicate Ready<C>(s: State<C>) {
    && Indexed(s)
    && (forall c | c in s.pending + s.clients :: s.conns[c].closes == 0)
  }

  lemma RegisterOpens<C>(cfg: Config, s: State<C>, c: C, fail: set<string>)
    requires c in s.conns
    ensures var t := HandleRegister(cfg, s, c, fail);
            && t.clients <= s.clients + {c} && t.pending == s.pending - {c}
            && forall d | d in s.conns :: d in t.conns && t.conns[d].closes == s.conns[d].closes
  {
    var s1, k := s.(pending := s.pending - {c}), s.conns[c];
    if !OverTotal(cfg, s1) && !OverUser(cfg, s1, k.userID) { Admitted(s1, c, fail); }
  }

  lemma SubscribeOpens<C>(s: State<C>, c: C, ch: string, fail: set<string>)
    requires c in s.conns
    ensures var t := HandleSubscribe(s, c, ch, fail);
            && t.clients == s.clients && t.pending == s.pending
            && forall d | d in s.conns :: d in t.conns && t.conns[d].closes == s.conns[d].closes
  {
    SubscribeConns(s, c, ch, fail);
  }

  lemma RegisterReady<C>(cfg: Config, s: State<C>, c: C, fail: set<string>)
    requires Ready(s) && c in s.pending
    ensures Ready(HandleRegister(cfg, s, c, fail))
  {
    RegisterIndexed(cfg, s, c, fail);
    RegisterOpens(cfg, s, c, fail);
    assert c in s.pending + s.clients;
    var t := HandleRegister(cfg, s, c, fail);
    forall d | d in t.pending + t.clients ensures t.conns[d].closes == 0 {
      assert d in s.pending + s.clients;
    }
  }

  lemma UnregisterReady<C>(s: State<C>, c: C, fail: set<string>)
    requires Ready(s) && c in s.conns
    ensures Ready(HandleUnregister(s, c, fail))
  {
    UnregisterIndexed(s, c, fail);
    var t := HandleUnregister(s, c, fail);
    forall d | d in t.pending + t.clients ensures t.conns[d].closes == 0 {
      assert d in s.pending + s.clients;
    }
  }

  /** Requests that change neither who is registered nor any queue's being open. */
  lemma SameOpenReady<C>(s: State<C>, t: State<C>)
    requires Ready(s) && Indexed(t) && t.pending == s.pending && t.clients == s.clients
    requires forall d | d in s.conns :: d in t.conns && t.conns[d].closes == s.conns[d].closes
    ensures Ready(t)
  {
  }

  lemma PostRegisterReady<C>(cfg: Config, s: State<C>, e: Event<C>)
    requires Ready(s) && Enabled(s, e) && e.PostRegister? && Indexed(Step(cfg, s, e))
    ensures Ready(Step(cfg, s, e))
  {
  }

  lemma StepReady<C>(cfg: Config, s: State<C>, e: Event<C>)
    requires Ready(s) && Enabled(s, e)
    ensures Ready(Step(cfg, s, e))
  {
    StepIndexed(cfg, s, e);
    match e
    case PostRegister(_, _, _, _) => PostRegisterReady(cfg, s, e);
    case Register(c, fail) => RegisterReady(cfg, s, c, fail);
    case Unregister(c, fail) => UnregisterReady(s, c, fail);
    case ClientSubscribe(c, ch, fail) =>
      SubscribeOpens(s, c, ch, fail);
      SameOpenReady(s, Step(cfg, s, e));
    case _ => SameOpenReady(s, Step(cfg, s, e));
  }

  /** What Run's select can serve. */
  predicate Served<C>(e: Event<C>) {
    e.Register? || e.Unregister? || e.ClientSubscribe? || e.ClientUnsubscribe? || e.Incoming?
  }

  /** Requests served and posts made, one after another. */
  predicate CanServe<C>(cfg: Config, s: State<C>, es: seq<Event<C>>)
    decreases |es|
  {
    |es| == 0 || (Enabled(s, es[0]) && CanServe(cfg, Step(cfg, s, es[0]), es[1..]))
  }

  function AfterServing<C>(cfg: Config, s: State<C>, es: seq<Event<C>>): State<C>
    requires CanServe(cfg, s, es)
    decreases |es|
  {
    if |es| == 0 then s else AfterServing(cfg, Step(cfg, s, es[0]), es[1..])
  }

  function Newcomers<C>(es: seq<Event<C>>): set<C> {
    set e | e in es && e.PostRegister? :: e.c
  }

  lemma StepKeys<C>(cfg: Config, s: State<C>, e: Event<C>)
    requires Enabled(s, e)
    ensures s.conns.Keys <= Step(cfg, s, e).conns.Keys
  {
    if !e.Incoming? { ServesKeys(cfg, s, e); }
  }

  /** A connection that is yet to be posted is not known before. */
  lemma {:induction false} NewcomersUnknown<C>(cfg: Config, s: State<C>, es: seq<Event<C>>)
    requires CanServe(cfg, s, es)
    ensures Newcomers(es) !! s.conns.Keys
    decreases |es|
  {
    if |es| > 0 {
      StepKeys(cfg, s, es[0]);
      NewcomersUnknown(cfg, Step(cfg, s, es[0]), es[1..]);
      forall c | c in Newcomers(es) ensures c !in s.conns {
        var e :| e in es && e.PostRegister? && e.c == c;
        if e != es[0] {
          assert e in es[1..];
          assert c in Newcomers(es[1..]);
        }
      }
    }
  }

  lemma NewcomersNext<C>(es: seq<Event<C>>, i: nat)
    requires i < |es|
    ensures Newcomers(es[..i + 1]) == Newcomers(es[..i]) + Newcomers(es[i..][..1])
    ensures Newcomers(es[..i]) <= Newcomers(es)
    ensures es[i..][1..] == es[i + 1..]
  {
    assert es[..i + 1] == es[..i] + [es[i]] && es[i..][..1] == [es[i]];
  }

  /** The connections still to be posted are as their constructor left them. */
  ghost predicate AllFresh(es: seq<Event<Client>>)
    reads Newcomers(es)
  {
    forall e | e in es && e.PostRegister? :: e.c in Newcomers(es) && e.c.Snapshot() == Fresh(e.userID, e.sessionKey, e.allowed)
  }

  class Hub {
    const cfg: Config
    const manager: RedisSubscriber
    var register: set<Client>          // posted to `register`, not served yet
    var unregister: multiset<Client>   // posted to `unregister`, or about to be, by any goroutine
    var clients: set<Client>
    var channels: map<string, set<Client>>
    var userClients: map<int, set<Client>>
    ghost var known: set<Client>       // every connection ever posted

    ghost function View(): State<Client>
      reads this, manager, known
    {
      State(register, clients, channels, userClients, map c | c in known :: c.Snapshot(),
            manager.View(), unregister)
    }

    ghost predicate Valid()
      reads this, manager, known
    {
      Ready(View())
    }

    constructor (cfg: Config, manager: RedisSubscriber)
      requires manager.View() == EMPTY
      ensures this.cfg == cfg && this.manager == manager && known == {}
      ensures Valid() && View() == Init()
    {
      this.cfg, this.manager := cfg, manager;
      register, unregister, clients, channels, userClients, known := {}, multiset{}, {}, map[], map[], {};
    }

    /** wsHandler hands a connection it just created to the hub. */
    method PostRegister(c: Client)
      requires Valid() && c !in known && c.Snapshot() == Fresh(c.userID, c.sessionKey, c.allowedChannels)
      modifies this`register, this`known
      ensures Valid() && known == old(known) + {c}
      ensures View() == Step(cfg, old(View()), Event.PostRegister(c, c.userID, c.sessionKey, c.allowedChannels))
    {
      StepReady(cfg, View(), Event.PostRegister(c, c.userID, c.sessionKey, c.allowedChannels));
      register := register + {c};
      known := known + {c};
      assert View().conns == old(View()).conns[c := Fresh(c.userID, c.sessionKey, c.allowedChannels)];
    }

    /** A read pump or a goroutine started by deliverFrame asks for the removal of `c`. */
    method PostUnregister(c: Client)
      requires Valid() && c in known
      modifies this`unregister
      ensures Valid() && View() == Step(cfg, old(View()), Event.PostUnregister(c))
    {
      StepReady(cfg, View(), Event.PostUnregister(c));
      unregister := unregister + multiset{c};
    }

    method AddSubscription(c: Client, channel: string, fail: set<string>)
      requires c in known
      modifies this`channels, c`subscribed, manager
      ensures View() == HubModel.AddSubscription(old(View()), c, channel, fail)
    {
      if channel in c.subscribed {
        return;
      }
      c.subscribed := c.subscribed + {channel};
      var firstSubscriber := channel !in channels;
      if firstSubscriber {
        channels := channels[channel := {}];
      }
      channels := channels[channel := channels[channel] + {c}];
      assert channels == old(channels)[channel := Members(old(channels), channel) + {c}];
      if firstSubscriber {
        var err := manager.Subscribe(channel, Succeeds(channel, fail));
      }
      assert View().conns == old(View()).conns[c := c.Snapshot()];
    }

    method RemoveFromChannel(c: Client, channel: string, fail: set<string>)
      modifies this`channels, manager
      ensures View() == ServingOrder.RemoveFromChannel(old(View()), c, channel, fail)
    {
      if channel !in channels {
        return;
      }
      var rest := channels[channel] - {c};
      channels := channels[channel := rest];
      if |rest| == 0 {
        assert rest == {};
        channels := channels - {channel};
        assert channels == old(channels) - {channel};
        var err := manager.Unsubscribe(channel, Succeeds(channel, fail));
      }
    }

    method Refuse(c: Client, code: int, reason: string)
      requires c in known
      modifies c`disconnect, c`hist
      ensures View() == old(View()).(conns := old(View()).conns[c := Signal(old(c.Snapshot()), Reason(code, reason))])
    {
      c.SignalDisconnect(code, reason);
      assert View().conns == old(View()).conns[c := c.Snapshot()];
    }

    method AddClient(c: Client)
      requires c in known
      modifies this`clients, this`userClients
      ensures View() == Join(old(View()), c)
    {
      clients := clients + {c};
      if c.userID !in userClients {
        userClients := userClients[c.userID := {}];
      }
      userClients := userClients[c.userID := userClients[c.userID] + {c}];
      assert userClients == old(userClients)[c.userID := Members(old(userClients), c.userID) + {c}];
    }

    method HandleRegister(c: Client, fail: set<string>)
      requires c in known
      modifies this`register, this`clients, this`userClients, this`channels, c, manager
      ensures View() == HubModel.HandleRegister(cfg, old(View()), c, fail)
    {
      register := register - {c};
      ghost var s := View();
      assert s == old(View()).(pending := old(View()).pending - {c});
      if cfg.maxTotal > 0 && |clients| >= cfg.maxTotal {
        Refuse(c, TOO_MANY_CONNECTIONS, "max_connections_total");
        return;
      }
      if cfg.maxPerUser > 0 {
        if c.userID in userClients && |userClients[c.userID]| >= cfg.maxPerUser {
          Refuse(c, TOO_MANY_CONNECTIONS, "max_connections_per_user");
          return;
        }
      }
      AddClient(c);
      assert View() == Join(s, c) && c.sessionKey == s.conns[c].sessionKey && c.userID == s.conns[c].userID;
      AddSubscription(c, SessionChannel(c.sessionKey), fail);
      AddSubscription(c, UserChannel(c.userID), fail);
    }

    method LeaveBucket(c: Client)
      modifies this`userClients
      ensures userClients == Leave(old(userClients), c, {c.userID})
    {
      if c.userID in userClients {
        userClients := userClients[c.userID := userClients[c.userID] - {c}];
        if |userClients[c.userID]| == 0 {
          userClients := userClients - {c.userID};
        }
      }
    }

    /** The loop over `c.subscribed`. */
    method LeaveChannels(c: Client, fail: set<string>)
      requires c in known
      modifies this`channels, manager
      ensures View() == Removed(old(View()), c, c.subscribed, fail)
    {
      var todo := c.subscribed;
      RemovedNone(View(), c, fail);
      assert c.subscribed - todo == {};
      while todo != {}
        invariant todo <= c.subscribed
        invariant View() == Removed(old(View()), c, c.subscribed - todo, fail)
        decreases todo
      {
        var channel :| channel in todo;
        RemovedNext(old(View()), c, c.subscribed - todo, channel, fail);
        RemoveFromChannel(c, channel, fail);
        assert c.subscribed - (todo - {channel}) == (c.subscribed - todo) + {channel};
        todo := todo - {channel};
      }
      assert c.subscribed - todo == c.subscribed;
    }

    method LeaveIndexes(c: Client, fail: set<string>)
      requires c in known
      modifies this`userClients, this`channels, manager
      ensures View() == Removed(old(View()).(userClients := Leave(old(userClients), c, {c.userID})), c, c.subscribed, fail)
    {
      LeaveBucket(c);
      assert View() == old(View()).(userClients := Leave(old(userClients), c, {c.userID}));
      LeaveChannels(c, fail);
    }

    method SignalAndClose(c: Client)
      requires c in known
      modifies c`disconnect, c`hist, c`closes
      ensures View() == old(View()).(conns := old(View()).conns[c := Depart(old(c.Snapshot()))])
    {
      c.SignalDisconnect(0, "");
      c.CloseSend();
      assert View().conns == old(View()).conns[c := c.Snapshot()];
    }

    method HandleUnregister(c: Client, fail: set<string>)
      requires c in known
      modifies this`unregister, this`clients, this`userClients, this`channels, manager
      modifies c`disconnect, c`hist, c`closes
      ensures View() == HubModel.HandleUnregister(old(View()), c, fail)
    {
      ghost var s := View();
      unregister := unregister - multiset{c};
      assert View() == s.(posts := s.posts - multiset{c});
      if c !in clients {
        return;
      }
      clients := clients - {c};
      ghost var s1 := View();
      assert s1 == s.(posts := s.posts - multiset{c}, clients := s.clients - {c});
      LeaveIndexes(c, fail);
      ghost var s2 := View();
      assert s2 == Removed(s1.(userClients := Leave(s.userClients, c, {c.userID})), c, s.conns[c].subscribed, fail);
      SignalAndClose(c);
    }

    method DeliverFrame(c: Client, f: Frame)
      requires c in known && c.closes == 0
      modifies this`unregister, c`send, c`disconnect, c`hist
      ensures View() == DeliverOne(old(View()), c, f)
    {
      var sent := c.Push(f);
      if !sent {
        unregister := unregister + multiset{c};
      }
      ghost var s := old(View());
      assert c.Snapshot() == Push(s.conns[c], f) && (sent <==> !Full(s.conns[c]));
      assert View().conns == s.conns[c := c.Snapshot()];
    }

    /** One round of the loop of handleIncoming. */
    method DeliverRound(ghost to: set<Client>, todo: set<Client>, f: Frame, ghost start: State<Client>)
      returns (left: set<Client>)
      requires todo != {} && todo <= to <= known && start.conns.Keys == known
      requires forall c | c in todo :: c.closes == 0
      requires View() == Deliver(start, to - todo, f)
      modifies this`unregister, todo`send, todo`disconnect, todo`hist
      ensures left < todo && View() == Deliver(start, to - left, f)
    {
      var c :| c in todo;
      DeliverNext(start, to - todo, c, f);
      DeliverFrame(c, f);
      left := todo - {c};
      assert to - left == (to - todo) + {c};
    }

    /** The loop of handleIncoming. */
    method DeliverAll(to: set<Client>, f: Frame)
      requires to <= known && forall c | c in to :: c.closes == 0
      modifies this`unregister, to`send, to`disconnect, to`hist
      ensures View() == Deliver(old(View()), to, f)
    {
      var todo := to;
      DeliverNone(View(), f);
      assert to - todo == {};
      while todo != {}
        invariant todo <= to
        invariant View() == Deliver(old(View()), to - todo, f)
        decreases todo
      {
        todo := DeliverRound(to, todo, f, old(View()));
      }
      assert to - todo == to;
    }

    /** The loop of handleControlMessage. */
    method DisconnectAll(to: set<Client>, code: int, text: string)
      requires to <= known
      modifies to`disconnect, to`hist
      ensures View() == SignalledAll(old(View()), to, Reason(code, text))
    {
      var todo := to;
      SignalNone(View(), Reason(code, text));
      assert to - todo == {};
      while todo != {}
        invariant todo <= to
        invariant View() == SignalledAll(old(View()), to - todo, Reason(code, text))
        decreases todo
      {
        var c :| c in todo;
        SignalNext(old(View()), to - todo, c, Reason(code, text));
        ghost var before := View();
        c.SignalDisconnect(code, text);
        assert View().conns == before.conns[c := c.Snapshot()];
        assert to - (todo - {c}) == (to - todo) + {c};
        todo := todo - {c};
      }
      assert to - todo == to;
    }

    method SendError(c: Client, channel: string, reason: string)
      requires c in known && c.closes == 0
      modifies this`unregister, c`send, c`disconnect, c`hist
      ensures View() == Deliver(old(View()), {c}, Error(channel, reason))
    {
      DeliverNone(View(), Error(channel, reason));
      DeliverNext(View(), {}, c, Error(channel, reason));
      assert {} + {c} == {c};
      DeliverFrame(c, Error(channel, reason));
    }

    method HandleClientSubscribe(c: Client, channel: string, fail: set<string>)
      requires Valid() && c in known
      modifies this`channels, this`unregister, c, manager
      ensures View() == HandleSubscribe(old(View()), c, channel, fail)
    {
      if c !in clients {
        return;
      }
      assert View().conns[c].closes == 0;
      if !ValidName(channel) || channel[0] == '_' {
        SendError(c, channel, "invalid_channel");
        return;
      }
      if channel !in c.allowedChannels {
        SendError(c, channel, "forbidden");
        return;
      }
      AddSubscription(c, channel, fail);
    }

    method HandleClientUnsubscribe(c: Client, channel: string, fail: set<string>)
      requires c in known
      modifies this`channels, c`subscribed, c`hist, manager
      ensures View() == HandleUnsubscribe(old(View()), c, channel, fail)
    {
      if c !in clients {
        return;
      }
      c.hist := c.hist.(unsubscribed := c.hist.unsubscribed + {channel});
      if channel !in c.subscribed {
        assert View().conns == old(View()).conns[c := c.Snapshot()];
        return;
      }
      c.subscribed := c.subscribed - {channel};
      assert View().conns == old(View()).conns[c := c.Snapshot()];
      RemovedNone(View(), c, fail);
      RemovedNext(View(), c, {}, channel, fail);
      assert {} + {channel} == {channel};
      RemoveFromChannel(c, channel, fail);
    }

    method HandleIncoming(msg: Message)
      requires Valid()
      modifies this`unregister, Members(channels, msg.channel)`send
      modifies Members(channels, msg.channel)`disconnect, Members(channels, msg.channel)`hist
      ensures View() == HubModel.HandleIncoming(old(View()), msg)
    {
      var to := Members(channels, msg.channel);
      forall c | c in to ensures c in known && c in clients && c.closes == 0 {
        assert View().conns[c].closes == 0;
      }
      if |msg.channel| > 0 && msg.channel[0] == '_' {
        if msg.body.kind == Some("revoke") {
          DisconnectAll(to, SESSION_REVOKED, "session_revoked");
        }
        return;
      }
      DeliverAll(to, Data(msg));
    }

    /** The select of Run. */
    method Serve(request: Event<Client>)
      requires Valid() && Served(request) && Enabled(View(), request)
      modifies this, known, manager
      ensures known == old(known) && View() == Step(cfg, old(View()), request)
    {
      match request {
        case Register(c, fail) => HandleRegister(c, fail);
        case Unregister(c, fail) => HandleUnregister(c, fail);
        case ClientSubscribe(c, channel, fail) => HandleClientSubscribe(c, channel, fail);
        case ClientUnsubscribe(c, channel, fail) => HandleClientUnsubscribe(c, channel, fail);
        case Incoming(msg) => HandleIncoming(msg);
      }
    }

    /** What other goroutines do to the hub: post to it, or close the subscriber. */
    method Meanwhile(event: Event<Client>)
      requires Valid() && !Served(event) && Enabled(View(), event)
      requires event.PostRegister? ==> event.c.Snapshot() == Fresh(event.userID, event.sessionKey, event.allowed)
      modifies this`register, this`unregister, this`known, manager
      ensures known == if event.PostRegister? then old(known) + {event.c} else old(known)
      ensures View() == Step(cfg, old(View()), event)
    {
      match event {
        case PostRegister(c, _, _, _) => PostRegister(c);
        case PostUnregister(c) => PostUnregister(c);
        case CloseManager => var err := manager.Close(true);
      }
    }

    method ServeFirst(requests: seq<Event<Client>>)
      requires |requests| > 0 && Valid() && CanServe(cfg, View(), requests) && AllFresh(requests)
      modifies this, known, manager
      ensures Valid() && known == old(known) + Newcomers(requests[..1])
      ensures CanServe(cfg, View(), requests[1..]) && AllFresh(requests[1..])
      ensures AfterServing(cfg, View(), requests[1..]) == old(AfterServing(cfg, View(), requests))
    {
      NewcomersUnknown(cfg, View(), requests);
      StepReady(cfg, View(), requests[0]);
      assert requests[..1] == [requests[0]];
      if Served(requests[0]) {
        Serve(requests[0]);
      } else {
        Meanwhile(requests[0]);
      }
    }

    /** The loop of Run: one request after another, in the order select picked them, with other
        goroutines posting new connections and unregister requests in between. */
    method Run(requests: seq<Event<Client>>)
      requires Valid() && CanServe(cfg, View(), requests) && AllFresh(requests)
      modifies this, known, manager, Newcomers(requests)
      ensures Valid() && known == old(known) + Newcomers(requests)
      ensures CanServe(cfg, old(View()), requests) && View() == AfterServing(cfg, old(View()), requests)
    {
      var i := 0;
      while i < |requests|
        invariant i <= |requests| && Valid() && known == old(known) + Newcomers(requests[..i])
        invariant CanServe(cfg, View(), requests[i..]) && AllFresh(requests[i..])
        invariant AfterServing(cfg, View(), requests[i..]) == AfterServing(cfg, old(View()), requests)
      {
        NewcomersNext(requests, i);
        ServeFirst(requests[i..]);
        i := i + 1;
      }
      assert requests[..i] == requests;
    }
  }
}
