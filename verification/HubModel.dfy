/** The hub of gateway/hub.go on values: its maps, the connections it knows, and one
    function per handler. `C` is the identity of a connection (a *Client in the gateway).

    Commands to Redis may fail. A handler issues at most one command per channel, so the
    set `fail` of the channels whose command fails says how each of them came out. */
module HubModel {
  import opened ChannelNames
  import opened Options
  import opened RedisModel

  const SEND_CAPACITY := 64
  const REGISTER_CAPACITY := 8
  const UNREGISTER_CAPACITY := 8
  const SUBSCRIBE_CAPACITY := 32
  const UNSUBSCRIBE_CAPACITY := 32
  const INCOMING_CAPACITY := 256

  const SESSION_REVOKED := 4401
  const SLOW_CLIENT := 4408
  const TOO_MANY_CONNECTIONS := 4429

  datatype Config = Config(maxTotal: int, maxPerUser: int)

  /** A close code for the connection; code 0 asks the write pump to stop without one. */
  datatype Reason = Reason(code: int, text: string)

  /** A message body: the text forwarded to clients, and the "type" that parsing it as a
      control message yields (None when it does not parse). */
  datatype Body = Body(text: string, kind: Option<string>)

  /** `seqNo` numbers the messages in the order Redis delivered them. It is bookkeeping: no
      branch reads it. */
  datatype Message = Message(seqNo: nat, channel: string, body: Body)

  datatype Frame = Data(msg: Message) | Error(channel: string, reason: string)

  /** What happened to a connection so far. No branch of the hub reads it. */
  datatype History = History(
    signals: seq<Reason>,   // every disconnect reason the hub tried to post, in order
    lost: set<nat>,         // messages not queued because the send queue was full
    unsubscribed: set<string>, // channels named by an unsubscribe request while registered
    panics: nat)            // sends on the closed send queue

  const NO_HISTORY := History([], {}, {}, 0)

  /** A connection as the hub sees it. `closes` counts the closings of `send`. */
  datatype Conn = Conn(
    userID: int, sessionKey: string, allowed: set<string>,
    subscribed: set<string>, send: seq<Frame>, closes: nat, mailbox: Option<Reason>, hist: History)

  function Fresh(userID: int, sessionKey: string, allowed: set<string>): Conn {
    Conn(userID, sessionKey, allowed, {}, [], 0, None, NO_HISTORY)
  }

  /** `pending` holds the connections posted to `register` and not served yet, `posts` the
      unregister requests posted and not served yet, in no particular order. */
  datatype State<C(==)> = State(
    pending: set<C>, clients: set<C>, channels: map<string, set<C>>, userClients: map<int, set<C>>,
    conns: map<C, Conn>, redis: Redis, posts: multiset<C>)

  function Init<C>(): State<C> {
    State({}, {}, map[], map[], map[], EMPTY, multiset{})
  }

  function Members<K, C>(m: map<K, set<C>>, k: K): set<C> {
    if k in m then m[k] else {}
  }

  // ---- One connection ----

  /** A one-slot mailbox: the first reason posted stays. */
  function Signal(k: Conn, r: Reason): Conn {
    k.(mailbox := if k.mailbox.None? then Some(r) else k.mailbox,
       hist := k.hist.(signals := k.hist.signals + [r]))
  }

  predicate Full(k: Conn) {
    k.closes == 0 && |k.send| >= SEND_CAPACITY
  }

  function Push(k: Conn, f: Frame): Conn {
    if k.closes > 0 then k.(hist := k.hist.(panics := k.hist.panics + 1))
    else if |k.send| < SEND_CAPACITY then k.(send := k.send + [f])
    else
      var lost := if f.Data? then k.hist.lost + {f.msg.seqNo} else k.hist.lost;
      Signal(k.(hist := k.hist.(lost := lost)), Reason(SLOW_CLIENT, "slow_client"))
  }

  function Depart(k: Conn): Conn {
    Signal(k, Reason(0, "")).(closes := k.closes + 1)
  }

  // ---- Pointwise updates: every member at once, so no order of service appears ----

  function PushAll<C>(conns: map<C, Conn>, to: set<C>, f: Frame): map<C, Conn> {
    map c | c in conns :: if c in to then Push(conns[c], f) else conns[c]
  }

  function FullOnes<C>(conns: map<C, Conn>, to: set<C>): set<C> {
    set c | c in to && c in conns && Full(conns[c])
  }

  function SignalAll<C>(conns: map<C, Conn>, to: set<C>, r: Reason): map<C, Conn> {
    map c | c in conns :: if c in to then Signal(conns[c], r) else conns[c]
  }

  /** `c` leaves the buckets in `ks`; a bucket left empty is deleted. */
  function Leave<K, C>(m: map<K, set<C>>, c: C, ks: set<K>): map<K, set<C>> {
    map k | k in m && !(k in ks && m[k] - {c} == {}) :: if k in ks then m[k] - {c} else m[k]
  }

  function Emptied<K, C>(m: map<K, set<C>>, c: C, ks: set<K>): set<K> {
    set k | k in m && k in ks && m[k] - {c} == {}
  }

  function Released(r: Redis, gone: set<string>): set<string> {
    set ch | ch in gone && ch in r.counts && r.counts[ch] <= 1
  }

  predicate Succeeds(ch: string, fail: set<string>) {
    ch !in fail
  }

  function Decrement(counts: map<string, int>, gone: set<string>): map<string, int> {
    map ch | ch in counts :: if ch in gone then counts[ch] - 1 else counts[ch]
  }

  function Closings(r: Redis, released: set<string>, fail: set<string>): map<string, seq<Cmd>> {
    map ch | ch in released :: Log(r, ch) + [Cmd(false, Succeeds(ch, fail))]
  }

  /** Unsubscribe called once for each channel in `gone`. */
  function UnsubscribeAll(r: Redis, gone: set<string>, fail: set<string>): Redis {
    if r.closed then r
    else Redis(Decrement(r.counts, gone) - Released(r, gone), false,
               r.log + Closings(r, Released(r, gone), fail))
  }

  // ---- Handlers ----

  function AddSubscription<C>(s: State<C>, c: C, ch: string, fail: set<string>): State<C>
    requires c in s.conns
  {
    var k := s.conns[c];
    if ch in k.subscribed then s
    else s.(conns := s.conns[c := k.(subscribed := k.subscribed + {ch})],
            channels := s.channels[ch := Members(s.channels, ch) + {c}],
            redis := if ch in s.channels then s.redis else Subscribe(s.redis, ch, Succeeds(ch, fail)))
  }

  predicate OverTotal<C>(cfg: Config, s: State<C>) {
    cfg.maxTotal > 0 && |s.clients| >= cfg.maxTotal
  }

  predicate OverUser<C>(cfg: Config, s: State<C>, userID: int) {
    cfg.maxPerUser > 0 && userID in s.userClients && |s.userClients[userID]| >= cfg.maxPerUser
  }

  function Refuse<C>(s: State<C>, c: C, text: string): State<C>
    requires c in s.conns
  {
    s.(conns := s.conns[c := Signal(s.conns[c], Reason(TOO_MANY_CONNECTIONS, text))])
  }

  function Join<C>(s: State<C>, c: C): State<C>
    requires c in s.conns
  {
    var u := s.conns[c].userID;
    s.(clients := s.clients + {c}, userClients := s.userClients[u := Members(s.userClients, u) + {c}])
  }

  function HandleRegister<C>(cfg: Config, s0: State<C>, c: C, fail: set<string>): State<C>
    requires c in s0.conns
  {
    var s, k := s0.(pending := s0.pending - {c}), s0.conns[c];
    if OverTotal(cfg, s) then Refuse(s, c, "max_connections_total")
    else if OverUser(cfg, s, k.userID) then Refuse(s, c, "max_connections_per_user")
    else
      var joined := AddSubscription(Join(s, c), c, SessionChannel(k.sessionKey), fail);
      AddSubscription(joined, c, UserChannel(k.userID), fail)
  }

  function HandleUnregister<C>(s0: State<C>, c: C, fail: set<string>): State<C>
    requires c in s0.conns
  {
    var s, k := s0.(posts := s0.posts - multiset{c}), s0.conns[c];
    if c !in s.clients then s
    else s.(clients := s.clients - {c},
            userClients := Leave(s.userClients, c, {k.userID}),
            channels := Leave(s.channels, c, k.subscribed),
            redis := UnsubscribeAll(s.redis, Emptied(s.channels, c, k.subscribed), fail),
            conns := s.conns[c := Depart(k)])
  }

  function Deliver<C>(s: State<C>, to: set<C>, f: Frame): State<C> {
    s.(conns := PushAll(s.conns, to, f), posts := s.posts + multiset(FullOnes(s.conns, to)))
  }

  function HandleSubscribe<C>(s: State<C>, c: C, ch: string, fail: set<string>): State<C>
    requires c in s.conns
  {
    if c !in s.clients then s
    else if !ValidName(ch) || Reserved(ch) then Deliver(s, {c}, Error(ch, "invalid_channel"))
    else if ch !in s.conns[c].allowed then Deliver(s, {c}, Error(ch, "forbidden"))
    else AddSubscription(s, c, ch, fail)
  }

  /** The request is noted in the history, then served. */
  function NoteUnsubscribe(k: Conn, ch: string): Conn {
    k.(hist := k.hist.(unsubscribed := k.hist.unsubscribed + {ch}))
  }

  function HandleUnsubscribe<C>(s: State<C>, c: C, ch: string, fail: set<string>): State<C>
    requires c in s.conns
  {
    if c !in s.clients then s
    else
      var k := NoteUnsubscribe(s.conns[c], ch);
      if ch !in k.subscribed then s.(conns := s.conns[c := k])
      else s.(conns := s.conns[c := k.(subscribed := k.subscribed - {ch})],
              channels := Leave(s.channels, c, {ch}),
              redis := UnsubscribeAll(s.redis, Emptied(s.channels, c, {ch}), fail))
  }

  function HandleIncoming<C>(s: State<C>, msg: Message): State<C> {
    var to := Members(s.channels, msg.channel);
    if !Reserved(msg.channel) then Deliver(s, to, Data(msg))
    else if msg.body.kind == Some("revoke")
    then s.(conns := SignalAll(s.conns, to, Reason(SESSION_REVOKED, "session_revoked")))
    else s
  }

  // ---- What Run serves, one request at a time and in any order ----

  datatype Event<C> =
    | PostRegister(c: C, userID: int, sessionKey: string, allowed: set<string>)
    | Register(c: C, fail: set<string>)
    | PostUnregister(c: C)
    | Unregister(c: C, fail: set<string>)
    | ClientSubscribe(c: C, channel: string, fail: set<string>)
    | ClientUnsubscribe(c: C, channel: string, fail: set<string>)
    | Incoming(msg: Message)
    | CloseManager

  /** A connection is created once and posted to `register` once; after that its read pump may
      send any requests, and post its unregister, at any time. */
  predicate Enabled<C>(s: State<C>, e: Event<C>) {
    match e
    case PostRegister(c, _, _, _) => c !in s.conns
    case Register(c, _) => c in s.pending && c in s.conns
    case Unregister(c, _) => c in s.posts && c in s.conns
    case Incoming(_) => true
    case CloseManager => true
    case _ => e.c in s.conns
  }

  function Step<C>(cfg: Config, s: State<C>, e: Event<C>): State<C>
    requires Enabled(s, e)
  {
    match e
    case PostRegister(c, u, key, allowed) =>
      s.(conns := s.conns[c := Fresh(u, key, allowed)], pending := s.pending + {c})
    case Register(c, fail) => HandleRegister(cfg, s, c, fail)
    case PostUnregister(c) => s.(posts := s.posts + multiset{c})
    case Unregister(c, fail) => HandleUnregister(s, c, fail)
    case ClientSubscribe(c, ch, fail) => HandleSubscribe(s, c, ch, fail)
    case ClientUnsubscribe(c, ch, fail) => HandleUnsubscribe(s, c, ch, fail)
    case Incoming(msg) => HandleIncoming(s, msg)
    case CloseManager => s.(redis := s.redis.(closed := true))
  }
}
