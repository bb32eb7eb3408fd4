/** The running gateway: the hub served in any order, the Redis read loop in front of it, one
    write pump per connection behind it, and unregister posts in flight. */
module GatewaySystem {
  import opened ChannelNames
  import opened HubModel
  import opened Options
  import opened HubInvariant

  /** `taken` are the frames WritePump took from `send`, `acted` the signal it took. */
  datatype Pump = Pump(running: bool, taken: seq<Frame>, acted: Option<Reason>)

  /** `stream` is what Redis delivered and the read loop has not forwarded, `incoming` the hub's
      queue. `arrived`, `processed` and `audience` are history: everything delivered, everything
      the hub took from `incoming`, and for each of those the members of its channel at that time. */
  datatype System<C(==)> = System(
    hub: State<C>, pumps: map<C, Pump>, stream: seq<Message>, incoming: seq<Message>,
    arrived: seq<Message>, processed: seq<Message>, audience: seq<set<C>>)

  /** The cases of WritePump's select: a frame (and whether writing it worked), a disconnect
      signal, the closed and drained queue, or any of the exits that involve no queue. */
  datatype Wake = OnFrame(ok: bool) | OnSignal | OnClosed | OnExit

  predicate CanWake(k: Conn, p: Pump, w: Wake) {
    p.running &&
    match w
    case OnFrame(_) => |k.send| > 0
    case OnSignal => k.mailbox.Some?
    case OnClosed => |k.send| == 0 && k.closes > 0
    case OnExit => true
  }

  function Woken(k: Conn, p: Pump, w: Wake): (Conn, Pump)
    requires CanWake(k, p, w)
  {
    match w
    case OnFrame(ok) => (k.(send := k.send[1..]), p.(taken := p.taken + [k.send[0]], running := ok))
    case OnSignal => (k.(mailbox := None), p.(acted := k.mailbox, running := false))
    case _ => (k, p.(running := false))
  }

  datatype Action<C> =
    | HubServes(e: Event<C>)
    | Arrive(channel: string, body: Body)
    | Forward
    | HubReceives
    | PumpWakes(c: C, wake: Wake)

  function Start<C>(): System<C> {
    System(Init(), map[], [], [], [], [], [])
  }

  /** What can happen next. Which of several possible actions happens is up to the scheduler. */
  predicate Possible<C>(s: System<C>, a: Action<C>) {
    match a
    case HubServes(e) => !e.Incoming? && Enabled(s.hub, e)
    case Arrive(_, _) => true
    case Forward => |s.stream| > 0 && |s.incoming| < INCOMING_CAPACITY
    case HubReceives => |s.incoming| > 0
    case PumpWakes(c, w) => c in s.hub.conns && c in s.pumps && CanWake(s.hub.conns[c], s.pumps[c], w)
  }

  function Act<C>(cfg: Config, s: System<C>, a: Action<C>): System<C>
    requires Possible(s, a)
  {
    match a
    case HubServes(e) =>
      s.(hub := Step(cfg, s.hub, e),
         pumps := if e.PostRegister? then s.pumps[e.c := Pump(true, [], None)] else s.pumps)
    case Arrive(ch, body) =>
      var msg := Message(|s.arrived|, ch, body);
      s.(stream := s.stream + [msg], arrived := s.arrived + [msg])
    case Forward => s.(stream := s.stream[1..], incoming := s.incoming + [s.stream[0]])
    case HubReceives =>
      var msg := s.incoming[0];
      s.(hub := HandleIncoming(s.hub, msg), incoming := s.incoming[1..],
         processed := s.processed + [msg], audience := s.audience + [Members(s.hub.channels, msg.channel)])
    case PumpWakes(c, w) =>
      var woken := Woken(s.hub.conns[c], s.pumps[c], w);
      s.(hub := s.hub.(conns := s.hub.conns[c := woken.0]), pumps := s.pumps[c := woken.1])
  }

  predicate IsRun<C>(cfg: Config, s: System<C>, run: seq<Action<C>>)
    decreases |run|
  {
    |run| == 0 || (Possible(s, run[0]) && IsRun(cfg, Act(cfg, s, run[0]), run[1..]))
  }

  function After<C>(cfg: Config, s: System<C>, run: seq<Action<C>>): System<C>
    requires IsRun(cfg, s, run)
    decreases |run|
  {
    if |run| == 0 then s else After(cfg, Act(cfg, s, run[0]), run[1..])
  }

  // ---- What holds of one connection and its pump ----

  predicate OwnControl(k: Conn, ch: string) {
    ch == SessionChannel(k.sessionKey) || ch == UserChannel(k.userID)
  }

  predicate Permitted(k: Conn, ch: string) {
    ch in k.allowed && ValidName(ch) && !Reserved(ch)
  }

  /** The pump acted on the first signal ever posted, or that signal still waits for it. */
  ghost predicate FirstSignal(k: Conn, p: Pump) {
    if p.acted.Some?
    then !p.running && |k.hist.signals| > 0 && p.acted.value == k.hist.signals[0]
    else k.mailbox == if |k.hist.signals| == 0 then None else Some(k.hist.signals[0])
  }

  /** A connection a cap turned away: one 4429 signal, no subscription, no frame, ever. */
  ghost predicate TurnedAway(k: Conn, p: Pump) {
    && |k.hist.signals| == 1 && k.hist.signals[0].code == TOO_MANY_CONNECTIONS
    && k.subscribed == {} && k.send == [] && p.taken == [] && k.hist.lost == {}
  }

  ghost predicate ConnOk(k: Conn, p: Pump, pending: bool, client: bool) {
    && !(pending && client)
    && (pending ==> k == Fresh(k.userID, k.sessionKey, k.allowed) && p.taken == [])
    && (client ==> k.closes == 0)
    && (!pending && !client && k.closes == 0 ==> TurnedAway(k, p))
    && k.closes <= 1 && k.hist.panics == 0
    && (k.closes == 1 ==> |k.hist.signals| > 0)
    && FirstSignal(k, p)
    && (forall ch | ch in k.subscribed :: Permitted(k, ch) || OwnControl(k, ch))
    && (forall f | f in p.taken + k.send :: f.Data? ==> Permitted(k, f.msg.channel))
    && (client ==> forall ch | OwnControl(k, ch) :: ch in k.subscribed <==> ch !in k.hist.unsubscribed)
  }

  lemma PushOk(k: Conn, p: Pump, f: Frame)
    requires ConnOk(k, p, false, true)
    requires f.Data? ==> Permitted(k, f.msg.channel)
    ensures ConnOk(Push(k, f), p, false, true)
  {
  }

  lemma SignalOk(k: Conn, p: Pump, r: Reason)
    requires ConnOk(k, p, false, true)
    ensures ConnOk(Signal(k, r), p, false, true)
  {
  }

  lemma RefuseOk(k: Conn, p: Pump, text: string)
    requires ConnOk(k, p, true, false)
    ensures ConnOk(Signal(k, Reason(TOO_MANY_CONNECTIONS, text)), p, false, false)
  {
  }

  lemma AdmitOk(k: Conn, p: Pump)
    requires ConnOk(k, p, true, false)
    ensures ConnOk(k.(subscribed := {SessionChannel(k.sessionKey), UserChannel(k.userID)}), p, false, true)
  {
  }

  lemma SubscribeOk(k: Conn, p: Pump, ch: string)
    requires ConnOk(k, p, false, true) && Permitted(k, ch)
    ensures ConnOk(k.(subscribed := k.subscribed + {ch}), p, false, true)
  {
  }

  lemma WakeOk(k: Conn, p: Pump, w: Wake, pending: bool, client: bool)
    requires ConnOk(k, p, pending, client) && CanWake(k, p, w)
    ensures ConnOk(Woken(k, p, w).0, Woken(k, p, w).1, pending, client)
    ensures Woken(k, p, w).1.taken + Woken(k, p, w).0.send == p.taken + k.send
  {
  }

  // ---- Order and loss ----

  /** The messages among the frames, in order. */
  function DataOf(frames: seq<Frame>): seq<Message> {
    if |frames| == 0 then []
    else DataOf(frames[..|frames| - 1]) +
         if frames[|frames| - 1].Data? then [frames[|frames| - 1].msg] else []
  }

  /** The hub had `c` on the channel of message `i` when it took it, and the message is one to forward. */
  predicate Routed<C>(processed: seq<Message>, audience: seq<set<C>>, c: C, i: nat)
    requires |audience| == |processed|
    requires i < |processed|
  {
    c in audience[i] && !Reserved(processed[i].channel)
  }

  /** The messages processed while `c` was on their channel, in order, without the ones in `lost`. */
  function Kept<C>(processed: seq<Message>, audience: seq<set<C>>, c: C, lost: set<nat>): seq<Message>
    requires |audience| == |processed|
  {
    if |processed| == 0 then []
    else
      var n := |processed| - 1;
      Kept(processed[..n], audience[..n], c, lost) +
      if Routed(processed, audience, c, n) && processed[n].seqNo !in lost then [processed[n]] else []
  }

  /** Every frame of the connection is accounted for: what it received is what was routed to it
      minus what was lost, in order; and once anything is lost, its removal is under way. */
  ghost predicate Accounted<C>(s: System<C>, c: C)
    requires c in s.hub.conns && c in s.pumps && |s.audience| == |s.processed|
  {
    var k, p := s.hub.conns[c], s.pumps[c];
    && DataOf(p.taken + k.send) == Kept(s.processed, s.audience, c, k.hist.lost)
    && (forall i | i in k.hist.lost :: i < |s.processed| && Routed(s.processed, s.audience, c, i))
    && (k.hist.lost != {} ==> k.closes > 0 || (c in s.hub.clients && c in s.hub.posts))
  }

  ghost predicate Streams<C>(s: System<C>) {
    && s.pumps.Keys == s.hub.conns.Keys
    && |s.audience| == |s.processed|
    && (forall i | 0 <= i < |s.audience| :: s.audience[i] <= s.hub.conns.Keys)
    && |s.incoming| <= INCOMING_CAPACITY
    && s.arrived == s.processed + s.incoming + s.stream
    && (forall i | 0 <= i < |s.arrived| :: s.arrived[i].seqNo == i)
  }

  ghost predicate Sound<C>(cfg: Config, s: System<C>) {
    && Indexed(s.hub) && CountsFollow(s.hub) && Capped(cfg, s.hub) && Streams(s)
    && (forall c | c in s.hub.conns ::
          ConnOk(s.hub.conns[c], s.pumps[c], c in s.hub.pending, c in s.hub.clients))
    && (forall c | c in s.hub.conns :: Accounted(s, c))
  }

  lemma DataOfSnoc(frames: seq<Frame>, f: Frame)
    ensures DataOf(frames + [f]) == DataOf(frames) + if f.Data? then [f.msg] else []
  {
  }

  lemma {:induction false} KeptIgnores<C>(processed: seq<Message>, audience: seq<set<C>>, c: C, lost: set<nat>, n: nat)
    requires |audience| == |processed|
    requires forall i | 0 <= i < |processed| :: processed[i].seqNo != n
    ensures Kept(processed, audience, c, lost + {n}) == Kept(processed, audience, c, lost)
  {
    if |processed| > 0 {
      var m := |processed| - 1;
      KeptIgnores(processed[..m], audience[..m], c, lost, n);
    }
  }
}
