/** The connection object of gateway/hub.go and the write pump of gateway/client.go. */
module Connections {
  import opened HubModel
  import opened Options
  import opened GatewaySystem

  datatype Turn = Wakes(wake: Wake) | Pushes(frame: Frame) | Signals(reason: Reason) | Departs

  /** The hub neither sends on a closed queue nor closes it again (`Guarantees.QueueProtocol`). */
  predicate CanTurn(k: Conn, p: Pump, turn: Turn) {
    match turn
    case Wakes(w) => CanWake(k, p, w)
    case Signals(_) => true
    case _ => k.closes == 0
  }

  function Turned(k: Conn, p: Pump, turn: Turn): (Conn, Pump)
    requires CanTurn(k, p, turn)
  {
    match turn
    case Wakes(w) => Woken(k, p, w)
    case Pushes(f) => (Push(k, f), p)
    case Signals(r) => (Signal(k, r), p)
    case Departs => (Depart(k), p)
  }

  /** The turns follow one another on what they leave behind, up to one that ends the pump. */
  ghost predicate TurnsReady(k: Conn, p: Pump, turns: seq<Turn>)
    decreases |turns|
  {
    |turns| == 0 || !p.running ||
    (CanTurn(k, p, turns[0]) && TurnsReady(Turned(k, p, turns[0]).0, Turned(k, p, turns[0]).1, turns[1..]))
  }

  ghost function AfterTurns(k: Conn, p: Pump, turns: seq<Turn>): (Conn, Pump)
    requires TurnsReady(k, p, turns)
    decreases |turns|
  {
    if |turns| == 0 || !p.running then (k, p)
    else AfterTurns(Turned(k, p, turns[0]).0, Turned(k, p, turns[0]).1, turns[1..])
  }

  /** The frames the hub pushed while there was room, in order. */
  ghost function Queued(k: Conn, p: Pump, turns: seq<Turn>): seq<Frame>
    requires TurnsReady(k, p, turns)
    decreases |turns|
  {
    if |turns| == 0 || !p.running then []
    else (if turns[0].Pushes? && !Full(k) then [turns[0].frame] else []) +
         Queued(Turned(k, p, turns[0]).0, Turned(k, p, turns[0]).1, turns[1..])
  }

  lemma {:induction false} TurnsSnoc(k: Conn, p: Pump, turns: seq<Turn>, turn: Turn)
    requires TurnsReady(k, p, turns)
    requires var (k', p') := AfterTurns(k, p, turns); p'.running && CanTurn(k', p', turn)
    ensures TurnsReady(k, p, turns + [turn])
    ensures var (k', p') := AfterTurns(k, p, turns); AfterTurns(k, p, turns + [turn]) == Turned(k', p', turn)
    decreases |turns|
  {
    if |turns| > 0 && p.running {
      var next := Turned(k, p, turns[0]);
      TurnsSnoc(next.0, next.1, turns[1..], turn);
      assert (turns + [turn])[0] == turns[0] && (turns + [turn])[1..] == turns[1..] + [turn];
    } else {
      assert turns == [] || !p.running;
    }
  }

  lemma TurnConserves(k: Conn, p: Pump, turn: Turn)
    requires CanTurn(k, p, turn)
    ensures var (k', p') := Turned(k, p, turn);
            p'.taken + k'.send == p.taken + k.send + if turn.Pushes? && !Full(k) then [turn.frame] else []
  {
  }

  /** What a turn tells the connection, and when it closes the queue. */
  lemma TurnTells(k: Conn, p: Pump, turn: Turn)
    requires CanTurn(k, p, turn)
    ensures var (k', p') := Turned(k, p, turn);
            && k'.closes == k.closes + (if turn.Departs? then 1 else 0)
            && k'.hist.signals == k.hist.signals +
                 (match turn
                  case Signals(r) => [r]
                  case Departs => [Reason(0, "")]
                  case Pushes(_) => if |k.send| < 64 then [] else [Reason(4408, "slow_client")]
                  case Wakes(_) => [])
            && (!turn.Wakes? ==> p' == p)
  {
  }

  /** Whatever the interleaving, the frames taken and those still queued are the ones there before and
      the ones pushed while there was room, in that order. */
  lemma {:induction false} TurnsConserve(k: Conn, p: Pump, turns: seq<Turn>)
    requires TurnsReady(k, p, turns)
    ensures var (k', p') := AfterTurns(k, p, turns);
            p'.taken + k'.send == p.taken + k.send + Queued(k, p, turns)
    decreases |turns|
  {
    if |turns| > 0 && p.running {
      var next := Turned(k, p, turns[0]);
      TurnConserves(k, p, turns[0]);
      TurnsConserve(next.0, next.1, turns[1..]);
    }
  }

  class Client {
    const userID: int
    const sessionKey: string
    const allowedChannels: set<string>
    var subscribed: set<string>
    var send: seq<Frame>             // the buffered channel `send`
    var closes: nat                  // how often `send` was closed
    var disconnect: Option<Reason>   // the one-slot channel `disconnect`
    ghost var hist: History
    // WritePump
    var pumping: bool
    var taken: seq<Frame>
    var acted: Option<Reason>

    ghost function Snapshot(): Conn
      reads this
    {
      Conn(userID, sessionKey, allowedChannels, subscribed, send, closes, disconnect, hist)
    }

    ghost function PumpView(): Pump
      reads this
    {
      Pump(pumping, taken, acted)
    }

    constructor (userID: int, sessionKey: string, allowed: set<string>)
      ensures Snapshot() == Fresh(userID, sessionKey, allowed)
      ensures PumpView() == Pump(true, [], None)
    {
      this.userID, this.sessionKey, this.allowedChannels := userID, sessionKey, allowed;
      subscribed, send, closes, disconnect, hist := {}, [], 0, None, NO_HISTORY;
      pumping, taken, acted := true, [], None;
    }

    /** disconnectClient: a second reason is dropped. */
    method SignalDisconnect(code: int, text: string)
      modifies this`disconnect, this`hist
      ensures Snapshot() == Signal(old(Snapshot()), Reason(code, text))
    {
      if disconnect.None? {
        disconnect := Some(Reason(code, text));
      }
      hist := hist.(signals := hist.signals + [Reason(code, text)]);
    }

    /** The non-blocking send of deliverFrame; sending on a closed queue would panic. */
    method TrySend(f: Frame) returns (sent: bool)
      requires closes == 0
      modifies this`send
      ensures sent <==> |old(send)| < SEND_CAPACITY
      ensures send == if sent then old(send) + [f] else old(send)
    {
      sent := |send| < SEND_CAPACITY;
      if sent {
        send := send + [f];
      }
    }

    /** deliverFrame, but for posting the unregister request when the queue is full. */
    method Push(f: Frame) returns (sent: bool)
      requires closes == 0
      modifies this`send, this`disconnect, this`hist
      ensures sent <==> !Full(old(Snapshot()))
      ensures Snapshot() == HubModel.Push(old(Snapshot()), f)
    {
      sent := TrySend(f);
      if !sent {
        if f.Data? {
          hist := hist.(lost := hist.lost + {f.msg.seqNo});
        }
        SignalDisconnect(SLOW_CLIENT, "slow_client");
      }
    }

    method CloseSend()
      modifies this`closes
      ensures closes == old(closes) + 1
    {
      closes := closes + 1;
    }

    /** One turn of WritePump's select. */
    method Wake(w: Wake)
      requires CanWake(Snapshot(), PumpView(), w)
      modifies this`send, this`disconnect, this`pumping, this`taken, this`acted
      ensures (Snapshot(), PumpView()) == Woken(old(Snapshot()), old(PumpView()), w)
    {
      match w
      case OnFrame(ok) =>
        taken := taken + [send[0]];
        send := send[1..];
        pumping := ok;
      case OnSignal =>
        acted := disconnect;
        disconnect := None;
        pumping := false;
      case OnClosed => pumping := false;
      case OnExit => pumping := false;
    }

    /** What happens next to the connection: a turn of its write pump, or one of the hub. */
    method TakeTurn(turn: Turn)
      requires CanTurn(Snapshot(), PumpView(), turn)
      modifies this`send, this`closes, this`disconnect, this`hist, this`pumping, this`taken, this`acted
      ensures (Snapshot(), PumpView()) == Turned(old(Snapshot()), old(PumpView()), turn)
    {
      match turn
      case Wakes(w) => Wake(w);
      case Pushes(f) => var sent := Push(f);
      case Signals(r) => SignalDisconnect(r.code, r.text);
      case Departs =>
        SignalDisconnect(0, "");
        CloseSend();
    }

    /** WritePump's loop until one of its wake-ups ends it, with whatever the hub does to the connection
        in between. `turns` says in which order. */
    method WritePump(turns: seq<Turn>) returns (used: nat)
      requires pumping
      requires TurnsReady(Snapshot(), PumpView(), turns)
      modifies this`send, this`closes, this`disconnect, this`hist, this`pumping, this`taken, this`acted
      ensures used <= |turns| && TurnsReady(old(Snapshot()), old(PumpView()), turns[..used])
      ensures (Snapshot(), PumpView()) == AfterTurns(old(Snapshot()), old(PumpView()), turns[..used])
      ensures pumping ==> used == |turns|
      ensures taken + send == old(taken + send) + Queued(old(Snapshot()), old(PumpView()), turns[..used])
    {
      used := 0;
      while used < |turns| && pumping
        invariant used <= |turns|
        invariant TurnsReady(old(Snapshot()), old(PumpView()), turns[..used])
        invariant (Snapshot(), PumpView()) == AfterTurns(old(Snapshot()), old(PumpView()), turns[..used])
        invariant pumping ==> TurnsReady(Snapshot(), PumpView(), turns[used..])
      {
        assert turns[used..][0] == turns[used] && turns[used..][1..] == turns[used + 1..];
        TurnsSnoc(old(Snapshot()), old(PumpView()), turns[..used], turns[used]);
        assert turns[..used] + [turns[used]] == turns[..used + 1];
        TakeTurn(turns[used]);
        used := used + 1;
      }
      TurnsConserve(old(Snapshot()), old(PumpView()), turns[..used]);
    }
  }
}
