/** The hub from one connection's point of view: what each request offers it, tells it and asks of the
    hub about it, with no handler in sight. Over a run this gives every signal ever posted. */
module Effects {
  import opened ChannelNames
  import opened HubModel
  import opened Options
  import opened HubInvariant
  import opened HubRelation
  import opened GatewaySystem
  import opened SystemInvariant
  import opened Guarantees
  import opened Pumps

  // ---- What one request means for connection `c` ----

  predicate On<C>(s: State<C>, c: C, ch: string)
    requires c in s.conns
  {
    c in s.clients && ch in s.conns[c].subscribed
  }

  /** The frame the hub wants to queue for `c`: a message on one of its channels, or the answer to a
      subscribe request it must refuse. */
  ghost function Offered<C>(s: State<C>, e: Event<C>, c: C): Option<Frame>
    requires c in s.conns
  {
    if e.Incoming? then
      if On(s, c, e.msg.channel) && !Reserved(e.msg.channel) then Some(Data(e.msg)) else None
    else if Concerns(e, c) && e.ClientSubscribe? && c in s.clients then
      if !ValidName(e.channel) || Reserved(e.channel) then Some(Error(e.channel, "invalid_channel"))
      else if e.channel !in s.conns[c].allowed then Some(Error(e.channel, "forbidden"))
      else None
    else None
  }

  /** The registered connections of a user. */
  ghost function OfSameUser<C>(s: State<C>, u: int): set<C> {
    set c | c in s.clients && c in s.conns && s.conns[c].userID == u
  }

  /** Why the hub would end the connection, other than that a frame did not fit. */
  ghost function Ended<C>(cfg: Config, s: State<C>, e: Event<C>, c: C): Option<Reason>
    requires c in s.conns
  {
    if e.Incoming? then
      if On(s, c, e.msg.channel) && Reserved(e.msg.channel) && e.msg.body.kind == Some("revoke")
      then Some(Reason(4401, "session_revoked")) else None
    else if !Concerns(e, c) then None
    else if e.Register? then
      if cfg.maxTotal > 0 && |s.clients| >= cfg.maxTotal then Some(Reason(4429, "max_connections_total"))
      else if cfg.maxPerUser > 0 && |OfSameUser(s, s.conns[c].userID)| >= cfg.maxPerUser
      then Some(Reason(4429, "max_connections_per_user"))
      else None
    else if e.Unregister? && c in s.clients then Some(Reason(0, ""))
    else None
  }

  function Listed<T>(o: Option<T>): seq<T> {
    if o.Some? then [o.value] else []
  }

  /** A queue of 64. */
  predicate Fits(k: Conn) {
    |k.send| < 64
  }

  ghost predicate Overflows<C>(s: State<C>, e: Event<C>, c: C)
    requires c in s.conns
  {
    Offered(s, e, c).Some? && !Fits(s.conns[c])
  }

  /** What the request posts to `c`. */
  ghost function Posted<C>(cfg: Config, s: State<C>, e: Event<C>, c: C): seq<Reason>
    requires c in s.conns
  {
    if Overflows(s, e, c) then [Reason(4408, "slow_client")] else Listed(Ended(cfg, s, e, c))
  }

  /** The queue of `c` grows by the frame offered if it fits; else `c` is told 4408 and its removal is
      posted. Nothing else is queued, told, closed or posted. */
  ghost predicate Effect<C>(cfg: Config, s: State<C>, t: State<C>, e: Event<C>, c: C)
    requires c in s.conns
  {
    c in t.conns &&
    var k, k' := s.conns[c], t.conns[c];
    && k'.send == k.send + (if Fits(k) then Listed(Offered(s, e, c)) else [])
    && k'.hist.signals == k.hist.signals + Posted(cfg, s, e, c)
    && k'.closes == k.closes + (if Concerns(e, c) && e.Unregister? && c in s.clients then 1 else 0)
    && t.posts[c] + (if Concerns(e, c) && e.Unregister? then 1 else 0)
       == s.posts[c] + (if Concerns(e, c) && e.PostUnregister? then 1 else 0) + (if Overflows(s, e, c) then 1 else 0)
  }

  lemma PushEffect(k: Conn, f: Frame)
    ensures var k' := Push(k, f);
            if k.closes > 0 then k' == k.(hist := k.hist.(panics := k.hist.panics + 1))
            else if Fits(k) then k'.send == k.send + [f] && k'.hist == k.hist && k'.mailbox == k.mailbox
            else k'.send == k.send && k'.hist.signals == k.hist.signals + [Reason(4408, "slow_client")]
  {
  }

  lemma OnIsMember<C>(s: State<C>, c: C, ch: string)
    requires Indexed(s) && c in s.conns
    ensures On(s, c, ch) <==> c in Members(s.channels, ch)
  {
    if c in s.clients {
      assert ch in s.conns[c].subscribed <==> c in Members(s.channels, ch);
    }
  }

  lemma DeliverPosts<C>(s: State<C>, to: set<C>, f: Frame, c: C)
    requires c in s.conns
    ensures Deliver(s, to, f).posts[c] == s.posts[c] + if c in to && Full(s.conns[c]) then 1 else 0
  {
  }

  lemma IncomingEffect<C>(cfg: Config, s: State<C>, msg: Message, c: C)
    requires Indexed(s) && c in s.conns && (c in s.clients ==> s.conns[c].closes == 0)
    ensures Effect(cfg, s, HandleIncoming(s, msg), Incoming(msg), c)
  {
    var to := Members(s.channels, msg.channel);
    OnIsMember(s, c, msg.channel);
    DeliverPosts(s, to, Data(msg), c);
    PushEffect(s.conns[c], Data(msg));
  }

  lemma RegisterPosts<C>(cfg: Config, s: State<C>, c: C, fail: set<string>)
    requires c in s.conns
    ensures HandleRegister(cfg, s, c, fail).posts == s.posts
  {
  }

  lemma SameUserBucket<C>(s: State<C>, u: int)
    requires Indexed(s)
    ensures OfSameUser(s, u) == Members(s.userClients, u)
    ensures u in s.userClients <==> OfSameUser(s, u) != {}
  {
    forall c | c in s.clients ensures s.conns[c].userID == u <==> c in Members(s.userClients, u) {
    }
  }

  /** A registration changes the queue of nobody, and tells `c` something only if a cap refuses it. */
  lemma RegisterConn<C>(cfg: Config, s: State<C>, c: C, fail: set<string>)
    requires c in s.conns
    ensures var s1, k, t := s.(pending := s.pending - {c}), s.conns[c], HandleRegister(cfg, s, c, fail);
            c in t.conns &&
            t.conns[c] ==
              if OverTotal(cfg, s1) then Signal(k, Reason(4429, "max_connections_total"))
              else if OverUser(cfg, s1, k.userID) then Signal(k, Reason(4429, "max_connections_per_user"))
              else k.(subscribed := k.subscribed + {SessionChannel(k.sessionKey), UserChannel(k.userID)})
  {
    var s1, k := s.(pending := s.pending - {c}), s.conns[c];
    if !OverTotal(cfg, s1) && !OverUser(cfg, s1, k.userID) { Admitted(s1, c, fail); }
  }

  lemma RefusalReason<C>(cfg: Config, s: State<C>, c: C, fail: set<string>)
    requires Indexed(s) && c in s.conns
    ensures var s1 := s.(pending := s.pending - {c});
            Ended(cfg, s, Register(c, fail), c) ==
              if OverTotal(cfg, s1) then Some(Reason(4429, "max_connections_total"))
              else if OverUser(cfg, s1, s.conns[c].userID) then Some(Reason(4429, "max_connections_per_user"))
              else None
  {
    SameUserBucket(s, s.conns[c].userID);
  }

  lemma RegisterEffect<C>(cfg: Config, s: State<C>, c: C, fail: set<string>)
    requires Indexed(s) && c in s.conns
    ensures Effect(cfg, s, HandleRegister(cfg, s, c, fail), Register(c, fail), c)
  {
    RegisterConn(cfg, s, c, fail);
    RefusalReason(cfg, s, c, fail);
    RegisterPosts(cfg, s, c, fail);
  }

  lemma SubscribePosts<C>(s: State<C>, c: C, ch: string, fail: set<string>, d: C)
    requires c in s.conns && d in s.conns
    ensures var refused := c in s.clients && (!ValidName(ch) || Reserved(ch) || ch !in s.conns[c].allowed);
            HandleSubscribe(s, c, ch, fail).posts[d] ==
            s.posts[d] + if d == c && refused && Full(s.conns[c]) then 1 else 0
  {
    DeliverPosts(s, {c}, Error(ch, "invalid_channel"), d);
    DeliverPosts(s, {c}, Error(ch, "forbidden"), d);
  }

  lemma SubscribeEffect<C>(cfg: Config, s: State<C>, c: C, ch: string, fail: set<string>)
    requires c in s.conns && (c in s.clients ==> s.conns[c].closes == 0)
    ensures Effect(cfg, s, HandleSubscribe(s, c, ch, fail), ClientSubscribe(c, ch, fail), c)
  {
    SubscribeConns(s, c, ch, fail);
    SubscribePosts(s, c, ch, fail, c);
    PushEffect(s.conns[c], Error(ch, "invalid_channel"));
    PushEffect(s.conns[c], Error(ch, "forbidden"));
  }

  lemma UnregisterEffect<C>(cfg: Config, s: State<C>, c: C, fail: set<string>)
    requires c in s.conns && c in s.posts
    ensures Effect(cfg, s, HandleUnregister(s, c, fail), Unregister(c, fail), c)
  {
  }

  lemma UnsubscribeEffect<C>(cfg: Config, s: State<C>, c: C, ch: string, fail: set<string>)
    requires c in s.conns
    ensures Effect(cfg, s, HandleUnsubscribe(s, c, ch, fail), ClientUnsubscribe(c, ch, fail), c)
  {
  }

  lemma OtherPosts<C>(cfg: Config, s: State<C>, e: Event<C>, c: C)
    requires Enabled(s, e) && !e.Incoming? && !Concerns(e, c) && c in s.conns
    ensures Step(cfg, s, e).posts[c] == s.posts[c]
  {
    match e
    case Register(d, fail) => RegisterPosts(cfg, s, d, fail);
    case ClientSubscribe(d, ch, fail) => SubscribePosts(s, d, ch, fail, c);
    case _ =>
  }

  lemma OtherEffect<C>(cfg: Config, s: State<C>, e: Event<C>, c: C)
    requires Enabled(s, e) && !e.Incoming? && !Concerns(e, c) && c in s.conns
    ensures Effect(cfg, s, Step(cfg, s, e), e, c)
  {
    OthersUntouched(cfg, s, e, c);
    OtherPosts(cfg, s, e, c);
  }

  /** Every request has on every connection exactly that effect. */
  lemma StepEffect<C>(cfg: Config, s: State<C>, e: Event<C>, c: C)
    requires Indexed(s) && Enabled(s, e) && c in s.conns && (c in s.clients ==> s.conns[c].closes == 0)
    ensures Effect(cfg, s, Step(cfg, s, e), e, c)
  {
    if e.Incoming? {
      IncomingEffect(cfg, s, e.msg, c);
    } else if !Concerns(e, c) {
      OtherEffect(cfg, s, e, c);
    } else {
      match e
      case Register(_, fail) => RegisterEffect(cfg, s, c, fail);
      case Unregister(_, fail) => UnregisterEffect(cfg, s, c, fail);
      case ClientSubscribe(_, ch, fail) => SubscribeEffect(cfg, s, c, ch, fail);
      case ClientUnsubscribe(_, ch, fail) => UnsubscribeEffect(cfg, s, c, ch, fail);
      case _ =>
    }
  }

  // ---- Over whole runs ----

  /** The request the hub serves in an action, if any. */
  ghost function Request<C>(s: System<C>, a: Action<C>): Option<Event<C>>
    requires Possible(s, a)
  {
    match a
    case HubServes(e) => Some(e)
    case HubReceives => Some(Incoming(s.incoming[0]))
    case _ => None
  }

  ghost function PostedBy<C>(cfg: Config, s: System<C>, a: Action<C>, c: C): seq<Reason>
    requires Possible(s, a) && c in s.hub.conns
  {
    if Request(s, a).Some? then Posted(cfg, s.hub, Request(s, a).value, c) else []
  }

  ghost function QueuedBy<C>(s: System<C>, a: Action<C>, c: C): seq<Frame>
    requires Possible(s, a) && c in s.hub.conns
  {
    if Request(s, a).Some? && Fits(s.hub.conns[c]) then Listed(Offered(s.hub, Request(s, a).value, c)) else []
  }

  lemma RequestStep<C>(cfg: Config, s: System<C>, a: Action<C>)
    requires Possible(s, a)
    ensures Request(s, a).Some? ==>
              && Enabled(s.hub, Request(s, a).value) && Act(cfg, s, a).hub == Step(cfg, s.hub, Request(s, a).value)
    ensures Request(s, a).None? ==>
              && Act(cfg, s, a).hub == s.hub.(conns := Act(cfg, s, a).hub.conns)
              && Act(cfg, s, a).hub.conns.Keys == s.hub.conns.Keys
              && forall c | c in s.hub.conns :: Act(cfg, s, a).hub.conns[c].hist == s.hub.conns[c].hist
                                               && Act(cfg, s, a).hub.conns[c].closes == s.hub.conns[c].closes
  {
  }

  lemma ReadyConn<C>(cfg: Config, s: System<C>, c: C)
    requires Sound(cfg, s) && c in s.hub.conns
    ensures Indexed(s.hub) && c in s.pumps && (c in s.hub.clients ==> s.hub.conns[c].closes == 0)
    ensures ConnOk(s.hub.conns[c], s.pumps[c], c in s.hub.pending, c in s.hub.clients)
  {
  }

  ghost predicate ActionEffect<C>(cfg: Config, s: System<C>, a: Action<C>, c: C)
    requires Possible(s, a) && c in s.hub.conns
  {
    var t := Act(cfg, s, a);
    && c in s.pumps && c in t.hub.conns && c in t.pumps
    && t.hub.conns[c].hist.signals == s.hub.conns[c].hist.signals + PostedBy(cfg, s, a, c)
    && t.pumps[c].taken + t.hub.conns[c].send == s.pumps[c].taken + s.hub.conns[c].send + QueuedBy(s, a, c)
  }

  lemma RequestEffect<C>(cfg: Config, s: System<C>, a: Action<C>, c: C)
    requires Possible(s, a) && c in s.hub.conns && c in s.pumps && Request(s, a).Some?
    requires Indexed(s.hub) && (c in s.hub.clients ==> s.hub.conns[c].closes == 0)
    ensures ActionEffect(cfg, s, a, c)
  {
    var e := Request(s, a).value;
    RequestStep(cfg, s, a);
    StepEffect(cfg, s.hub, e, c);
    var t := Act(cfg, s, a);
    assert t.pumps[c] == s.pumps[c];
    assert t.hub.conns[c].send == s.hub.conns[c].send + QueuedBy(s, a, c);
  }

  lemma NoRequestEffect<C>(cfg: Config, s: System<C>, a: Action<C>, c: C)
    requires Possible(s, a) && c in s.hub.conns && c in s.pumps && Request(s, a).None?
    requires ConnOk(s.hub.conns[c], s.pumps[c], c in s.hub.pending, c in s.hub.clients)
    ensures ActionEffect(cfg, s, a, c)
  {
    RequestStep(cfg, s, a);
    assert s.pumps[c].taken + s.hub.conns[c].send + [] == s.pumps[c].taken + s.hub.conns[c].send;
    if a.PumpWakes? && a.c == c {
      WakeOk(s.hub.conns[c], s.pumps[c], a.wake, c in s.hub.pending, c in s.hub.clients);
    }
  }

  /** Every action on every connection: what it posts and what it queues, in every reachable state. */
  lemma ActEffect<C>(cfg: Config, s: System<C>, a: Action<C>, c: C)
    requires Sound(cfg, s) && Possible(s, a) && c in s.hub.conns
    ensures ActionEffect(cfg, s, a, c)
  {
    ReadyConn(cfg, s, c);
    if Request(s, a).Some? { RequestEffect(cfg, s, a, c); } else { NoRequestEffect(cfg, s, a, c); }
  }

  ghost function PostedFirst<C>(cfg: Config, s: System<C>, a: Action<C>, c: C): seq<Reason>
    requires Possible(s, a)
  {
    if c in s.hub.conns then PostedBy(cfg, s, a, c) else []
  }

  ghost function QueuedFirst<C>(s: System<C>, a: Action<C>, c: C): seq<Frame>
    requires Possible(s, a)
  {
    if c in s.hub.conns then QueuedBy(s, a, c) else []
  }

  /** All that a run posts to `c`, in order. */
  ghost function PostedOver<C>(cfg: Config, s: System<C>, run: seq<Action<C>>, c: C): seq<Reason>
    requires IsRun(cfg, s, run)
    decreases |run|
  {
    if |run| == 0 then []
    else PostedFirst(cfg, s, run[0], c) + PostedOver(cfg, Act(cfg, s, run[0]), run[1..], c)
  }

  /** All that a run queues for `c`, in order. */
  ghost function QueuedOver<C>(cfg: Config, s: System<C>, run: seq<Action<C>>, c: C): seq<Frame>
    requires IsRun(cfg, s, run)
    decreases |run|
  {
    if |run| == 0 then []
    else QueuedFirst(s, run[0], c) + QueuedOver(cfg, Act(cfg, s, run[0]), run[1..], c)
  }

  ghost function SignalsOf<C>(s: System<C>, c: C): seq<Reason> {
    if c in s.hub.conns then s.hub.conns[c].hist.signals else []
  }

  ghost function FramesOf<C>(s: System<C>, c: C): seq<Frame> {
    if c in s.hub.conns && c in s.pumps then s.pumps[c].taken + s.hub.conns[c].send else []
  }

  lemma Accepted<C>(cfg: Config, s: System<C>, a: Action<C>, c: C)
    requires Possible(s, a) && c !in s.hub.conns
    ensures SignalsOf(Act(cfg, s, a), c) == [] && FramesOf(Act(cfg, s, a), c) == []
  {
    if a.HubServes? { ServesKeys(cfg, s.hub, a.e); }
  }

  lemma FirstEffect<C>(cfg: Config, s: System<C>, a: Action<C>, c: C)
    requires Sound(cfg, s) && Possible(s, a)
    ensures SignalsOf(Act(cfg, s, a), c) == SignalsOf(s, c) + PostedFirst(cfg, s, a, c)
    ensures FramesOf(Act(cfg, s, a), c) == FramesOf(s, c) + QueuedFirst(s, a, c)
  {
    if c in s.hub.conns { ActEffect(cfg, s, a, c); } else { Accepted(cfg, s, a, c); }
  }

  lemma Joined<T>(a: seq<T>, b: seq<T>, c: seq<T>)
    ensures a + b + c == a + (b + c)
  {
  }

  lemma {:induction false} RunEffect<C>(cfg: Config, s: System<C>, run: seq<Action<C>>, c: C)
    requires Sound(cfg, s) && IsRun(cfg, s, run)
    ensures SignalsOf(After(cfg, s, run), c) == SignalsOf(s, c) + PostedOver(cfg, s, run, c)
    ensures FramesOf(After(cfg, s, run), c) == FramesOf(s, c) + QueuedOver(cfg, s, run, c)
    decreases |run|
  {
    if |run| > 0 {
      var t := Act(cfg, s, run[0]);
      FirstEffect(cfg, s, run[0], c);
      ActSound(cfg, s, run[0]);
      RunEffect(cfg, t, run[1..], c);
      Joined(SignalsOf(s, c), PostedFirst(cfg, s, run[0], c), PostedOver(cfg, t, run[1..], c));
      Joined(FramesOf(s, c), QueuedFirst(s, run[0], c), QueuedOver(cfg, t, run[1..], c));
    }
  }

  lemma StartSound<C>(cfg: Config)
    ensures Sound<C>(cfg, Start())
  {
  }

  /** In every run the signals posted to a connection, and the frames it took or has queued, error
      frames included, are exactly what the requests served in that run meant for it, in that order. */
  lemma EverythingPostedAndQueued<C>(cfg: Config, run: seq<Action<C>>, c: C)
    requires IsRun(cfg, Start(), run) && c in After(cfg, Start(), run).hub.conns
    ensures var s := After(cfg, Start(), run);
            && c in s.pumps
            && s.hub.conns[c].hist.signals == PostedOver(cfg, Start(), run, c)
            && s.pumps[c].taken + s.hub.conns[c].send == QueuedOver(cfg, Start(), run, c)
  {
    var start: System<C> := Start();
    StartSound<C>(cfg);
    RunEffect(cfg, start, run, c);
    KeysRun(cfg, start, run);
  }

  // ---- The shape of the signals ----

  predicate IsRevocation(msg: Message) {
    Reserved(msg.channel) && msg.body.kind == Some("revoke")
  }

  /** How many revokes the hub took while `c` was on their channel. */
  function Revokes<C>(processed: seq<Message>, audience: seq<set<C>>, c: C): nat
    requires |audience| == |processed|
  {
    if |processed| == 0 then 0
    else
      var n := |processed| - 1;
      Revokes(processed[..n], audience[..n], c) + if c in audience[n] && IsRevocation(processed[n]) then 1 else 0
  }

  const REVOKED := Reason(4401, "session_revoked")
  const SLOW := Reason(4408, "slow_client")
  const LEFT := Reason(0, "")

  predicate IsRefusal(r: Reason) {
    r == Reason(4429, "max_connections_total") || r == Reason(4429, "max_connections_per_user")
  }

  predicate Usual(signals: seq<Reason>) {
    forall i | 0 <= i < |signals| :: signals[i] == REVOKED || signals[i] == SLOW
  }

  /** A waiting connection was told nothing; a refused one 4429, once, and nothing else; any other was
      told 4401 and 4408 any number of times and then, exactly if it was removed, to stop. */
  ghost predicate Shape(k: Conn, pending: bool, client: bool) {
    var signals := k.hist.signals;
    if pending then k.closes == 0 && signals == []
    else if client then k.closes == 0 && Usual(signals)
    else if k.closes == 0 then |signals| == 1 && IsRefusal(signals[0])
    else |signals| > 0 && signals[|signals| - 1] == LEFT && Usual(signals[..|signals| - 1])
  }

  ghost predicate Shaped<C>(s: System<C>, c: C)
    requires c in s.hub.conns && |s.audience| == |s.processed|
  {
    && Shape(s.hub.conns[c], c in s.hub.pending, c in s.hub.clients)
    && multiset(s.hub.conns[c].hist.signals)[REVOKED] == Revokes(s.processed, s.audience, c)
  }

  lemma PostedRevoked<C>(cfg: Config, s: State<C>, e: Event<C>, c: C)
    requires c in s.conns
    ensures multiset(Posted(cfg, s, e, c))[REVOKED] ==
            if e.Incoming? && On(s, c, e.msg.channel) && IsRevocation(e.msg) then 1 else 0
  {
  }

  /** Who is waiting and who is registered after a request that names `c`. */
  lemma Standing<C>(cfg: Config, s: State<C>, e: Event<C>, c: C)
    requires Indexed(s) && Enabled(s, e) && Concerns(e, c) && c in s.conns
    ensures var t := Step(cfg, s, e);
            && (c in t.pending <==> c in s.pending && !e.Register?)
            && (c in t.clients <==>
                  if e.Register? then Ended(cfg, s, e, c).None? else c in s.clients && !e.Unregister?)
  {
    match e
    case Register(_, fail) =>
      RefusalReason(cfg, s, c, fail);
      var s1 := s.(pending := s.pending - {c});
      if !OverTotal(cfg, s1) && !OverUser(cfg, s1, s.conns[c].userID) { Admitted(s1, c, fail); }
    case ClientSubscribe(_, ch, fail) => SubscribeConns(s, c, ch, fail);
    case _ =>
  }

  lemma ShapeIncoming<C>(cfg: Config, s: State<C>, msg: Message, c: C)
    requires Indexed(s) && c in s.conns && Shape(s.conns[c], c in s.pending, c in s.clients)
    ensures var t := HandleIncoming(s, msg);
            c in t.conns && Shape(t.conns[c], c in t.pending, c in t.clients)
  {
    StepEffect(cfg, s, Incoming(msg), c);
  }

  lemma ShapeNamed<C>(cfg: Config, s: State<C>, e: Event<C>, c: C)
    requires Indexed(s) && Enabled(s, e) && Concerns(e, c) && c in s.conns
    requires Shape(s.conns[c], c in s.pending, c in s.clients)
    ensures var t := Step(cfg, s, e);
            c in t.conns && Shape(t.conns[c], c in t.pending, c in t.clients)
  {
    StepEffect(cfg, s, e, c);
    Standing(cfg, s, e, c);
    var signals := Step(cfg, s, e).conns[c].hist.signals;
    if e.Unregister? && c in s.clients {
      assert signals[..|signals| - 1] == s.conns[c].hist.signals;
    }
  }

  lemma ShapeStep<C>(cfg: Config, s: State<C>, e: Event<C>, c: C)
    requires Indexed(s) && Enabled(s, e) && c in s.conns && Shape(s.conns[c], c in s.pending, c in s.clients)
    ensures var t := Step(cfg, s, e);
            c in t.conns && Shape(t.conns[c], c in t.pending, c in t.clients)
  {
    if e.Incoming? {
      ShapeIncoming(cfg, s, e.msg, c);
    } else if Concerns(e, c) {
      ShapeNamed(cfg, s, e, c);
    } else {
      OthersUntouched(cfg, s, e, c);
    }
  }

  lemma RevokesSnoc<C>(processed: seq<Message>, audience: seq<set<C>>, msg: Message, to: set<C>, c: C)
    requires |audience| == |processed|
    ensures Revokes(processed + [msg], audience + [to], c) ==
            Revokes(processed, audience, c) + if c in to && IsRevocation(msg) then 1 else 0
  {
  }

  lemma {:induction false} NoRevokes<C>(processed: seq<Message>, audience: seq<set<C>>, c: C)
    requires |audience| == |processed| && forall i | 0 <= i < |audience| :: c !in audience[i]
    ensures Revokes(processed, audience, c) == 0
  {
    if |processed| > 0 {
      NoRevokes(processed[..|processed| - 1], audience[..|processed| - 1], c);
    }
  }

  lemma ShapeAct<C>(cfg: Config, s: System<C>, a: Action<C>, c: C)
    requires Indexed(s.hub) && Possible(s, a) && c in s.hub.conns
    requires Shape(s.hub.conns[c], c in s.hub.pending, c in s.hub.clients)
    ensures var t := Act(cfg, s, a).hub;
            c in t.conns && Shape(t.conns[c], c in t.pending, c in t.clients)
  {
    RequestStep(cfg, s, a);
    if Request(s, a).Some? { ShapeStep(cfg, s.hub, Request(s, a).value, c); }
  }

  lemma RevokesAct<C>(cfg: Config, s: System<C>, a: Action<C>, c: C)
    requires Indexed(s.hub) && Possible(s, a) && c in s.hub.conns && |s.audience| == |s.processed|
    ensures var t := Act(cfg, s, a);
            && |t.audience| == |t.processed|
            && Revokes(t.processed, t.audience, c) ==
               Revokes(s.processed, s.audience, c) + multiset(PostedBy(cfg, s, a, c))[REVOKED]
  {
    if Request(s, a).Some? { PostedRevoked(cfg, s.hub, Request(s, a).value, c); }
    if a.HubReceives? {
      var msg := s.incoming[0];
      OnIsMember(s.hub, c, msg.channel);
      RevokesSnoc(s.processed, s.audience, msg, Members(s.hub.channels, msg.channel), c);
    }
  }

  lemma ShapedAct<C>(cfg: Config, s: System<C>, a: Action<C>, c: C)
    requires Sound(cfg, s) && Possible(s, a) && c in s.hub.conns && Shaped(s, c)
    ensures var t := Act(cfg, s, a);
            c in t.hub.conns && |t.audience| == |t.processed| && Shaped(t, c)
  {
    ReadyConn(cfg, s, c);
    ShapeAct(cfg, s, a, c);
    RevokesAct(cfg, s, a, c);
    ActEffect(cfg, s, a, c);
  }

  lemma ShapedNewcomer<C>(cfg: Config, s: System<C>, a: Action<C>, c: C)
    requires Streams(s) && Possible(s, a) && c !in s.hub.conns && c in Act(cfg, s, a).hub.conns
    ensures var t := Act(cfg, s, a);
            |t.audience| == |t.processed| && Shaped(t, c)
  {
    if a.HubServes? { ServesKeys(cfg, s.hub, a.e); }
    NoRevokes(s.processed, s.audience, c);
  }

  lemma {:induction false} ShapedRun<C>(cfg: Config, s: System<C>, run: seq<Action<C>>, c: C)
    requires Sound(cfg, s) && IsRun(cfg, s, run) && (c in s.hub.conns ==> Shaped(s, c))
    ensures var t := After(cfg, s, run);
            c in t.hub.conns ==> |t.audience| == |t.processed| && Shaped(t, c)
    decreases |run|
  {
    if |run| > 0 {
      var t := Act(cfg, s, run[0]);
      if c in s.hub.conns {
        ShapedAct(cfg, s, run[0], c);
      } else if c in t.hub.conns {
        ShapedNewcomer(cfg, s, run[0], c);
      }
      ActSound(cfg, s, run[0]);
      ShapedRun(cfg, t, run[1..], c);
    }
  }

  /** All the signals a connection ever gets, in every run: none while it waits; 4429, once, if a cap
      refused it; else 4401 as often as the hub took a revoke with the connection on its channel, 4408 in
      between, and the plain stop exactly when it is removed, as the last one. */
  lemma SignalsOfAConnection<C>(cfg: Config, run: seq<Action<C>>, c: C)
    requires IsRun(cfg, Start(), run) && c in After(cfg, Start(), run).hub.conns
    ensures var s := After(cfg, Start(), run);
            && |s.audience| == |s.processed|
            && Shape(s.hub.conns[c], c in s.hub.pending, c in s.hub.clients)
            && multiset(s.hub.conns[c].hist.signals)[Reason(4401, "session_revoked")]
               == Revokes(s.processed, s.audience, c)
  {
    var start: System<C> := Start();
    StartSound<C>(cfg);
    ShapedRun(cfg, start, run, c);
  }

  // ---- Control messages ----

  lemma ControlEffect<C>(cfg: Config, s: State<C>, msg: Message, c: C)
    requires Indexed(s) && c in s.conns && (c in s.clients ==> s.conns[c].closes == 0) && Reserved(msg.channel)
    ensures var t := HandleIncoming(s, msg);
            && c in t.conns && t.conns[c].send == s.conns[c].send && t.posts == s.posts
            && (msg.body.kind != Some("revoke") ==> t == s)
            && (|t.conns[c].hist.signals| > |s.conns[c].hist.signals|
                <==> msg.body.kind == Some("revoke") && On(s, c, msg.channel))
  {
    StepEffect(cfg, s, Incoming(msg), c);
  }

  /** A message on a control channel never queues a frame. It ends the connections on the channel if it
      is a revoke; if it is anything else, or does not parse, the hub stays as it is. */
  lemma ControlMessage<C>(cfg: Config, run: seq<Action<C>>, c: C)
    requires IsRun(cfg, Start(), run) && Possible(After(cfg, Start(), run), HubReceives)
    requires |After(cfg, Start(), run).incoming[0].channel| > 0
    requires After(cfg, Start(), run).incoming[0].channel[0] == '_'
    requires c in After(cfg, Start(), run).hub.conns
    ensures var s := After(cfg, Start(), run);
            var msg, t := s.incoming[0], Act(cfg, s, HubReceives).hub;
            && c in t.conns && t.conns[c].send == s.hub.conns[c].send && t.posts == s.hub.posts
            && (msg.body.kind != Some("revoke") ==> t == s.hub)
            && (|t.conns[c].hist.signals| > |s.hub.conns[c].hist.signals|
                <==> msg.body.kind == Some("revoke") && On(s.hub, c, msg.channel))
  {
    EveryRunSound(cfg, run);
    var s := After(cfg, Start(), run);
    ReadyConn(cfg, s, c);
    ControlEffect(cfg, s.hub, s.incoming[0], c);
  }

  /** Serving the removal of a registered connection tells it to stop without a close code. */
  lemma RemovalTellsToStop<C>(cfg: Config, run: seq<Action<C>>, c: C, fail: set<string>)
    requires IsRun(cfg, Start(), run) && Possible(After(cfg, Start(), run), HubServes(Unregister(c, fail)))
    requires c in After(cfg, Start(), run).hub.clients
    ensures var s := After(cfg, Start(), run);
            var t := Act(cfg, s, HubServes(Unregister(c, fail)));
            && c in t.hub.conns && t.hub.conns[c].hist.signals == s.hub.conns[c].hist.signals + [Reason(0, "")]
            && t.hub.conns[c].subscribed == s.hub.conns[c].subscribed
            && (s.hub.conns[c].mailbox.None? ==> t.hub.conns[c].mailbox == Some(Reason(0, "")))
            && (s.hub.conns[c].mailbox.Some? ==> t.hub.conns[c].mailbox == s.hub.conns[c].mailbox)
  {
    EveryRunSound(cfg, run);
    var s := After(cfg, Start(), run);
    ReadyConn(cfg, s, c);
    StepEffect(cfg, s.hub, Unregister(c, fail), c);
  }
}
