/** The WSClient object of static/websocket_gateway/client.js. Its callbacks run on whichever socket
    fired, but speak to `this.ws`. Each method is a step of ReconnectModel on `View()`. */
module Reconnect {
  import opened ReconnectModel

  /** What the browser's WebSocket shows of itself. */
  class WebSocket {
    var readyState: ReadyState
    var sent: seq<Sent>
    var closeFired: bool

    ghost function View(): Socket
      reads this
    {
      Socket(readyState, sent, closeFired)
    }

    constructor ()
      ensures View() == NEW_SOCKET
    {
      readyState, sent, closeFired := CONNECTING, [], false;
    }

    /** Throws while connecting, drops the frame once closing. */
    method Send(f: Sent) returns (threw: bool)
      modifies this`sent
      ensures threw <==> readyState.CONNECTING?
      ensures sent == if readyState.OPEN? then old(sent) + [f] else old(sent)
    {
      if readyState.OPEN? {
        sent := sent + [f];
      }
      return readyState.CONNECTING?;
    }

    method Close()
      modifies this`readyState
      ensures View() == CloseSocket(old(View()))
    {
      if readyState.CONNECTING? || readyState.OPEN? {
        readyState := CLOSING;
      }
    }
  }

  class WSClient {
    var ws: WebSocket
    var channels: seq<string>
    var backoff: int
    var shouldReconnect: bool
    var timers: nat                 // pending setTimeout callbacks
    ghost var sockets: seq<WebSocket>
    ghost var waits: seq<real>
    ghost var unauthorized: bool
    ghost var thrown: nat

    ghost predicate Valid()
      reads this
    {
      && |sockets| > 0 && ws == sockets[|sockets| - 1]
      && forall i, j | 0 <= i < j < |sockets| :: sockets[i] != sockets[j]
    }

    ghost function View(): Client
      reads this, sockets
    {
      var all := sockets;
      Client(seq(|all|, i requires 0 <= i < |all| reads all => all[i].View()),
             channels, backoff, shouldReconnect, timers, waits, unauthorized, thrown)
    }

    constructor (options: seq<string>)
      ensures Valid() && fresh(sockets) && View() == Construct(options)
    {
      ws := new WebSocket();
      channels, backoff, shouldReconnect, timers := [], FIRST_BACKOFF, true, 0;
      waits, unauthorized, thrown := [], false, 0;
      sockets := [];
      new;
      sockets := [ws];
      for i := 0 to |options|
        invariant channels == SetOf(options[..i])
        invariant fresh(ws) && sockets == [ws] && ws.View() == NEW_SOCKET
        invariant backoff == FIRST_BACKOFF && shouldReconnect && timers == 0
        invariant waits == [] && !unauthorized && thrown == 0
      {
        assert options[..i + 1][..i] == options[..i];
        channels := Add(channels, options[i]);
      }
      assert options[..|options|] == options;
      assert View().sockets == [NEW_SOCKET];
    }

    method Subscribe(channel: string)
      requires Valid()
      modifies this`channels, ws`sent
      ensures Valid() && View() == Step(old(View()), Event.Subscribe(channel))
    {
      channels := Add(channels, channel);
      if ws.readyState == OPEN {
        var threw := ws.Send(Sub(channel));
        assert View().sockets == old(View()).sockets[|sockets| - 1 := ws.View()];
      } else {
        assert View().sockets == old(View()).sockets;
      }
    }

    method Unsubscribe(channel: string)
      requires Valid()
      modifies this`channels, ws`sent
      ensures Valid() && View() == Step(old(View()), Event.Unsubscribe(channel))
    {
      channels := Delete(channels, channel);
      if ws.readyState == OPEN {
        var threw := ws.Send(Unsub(channel));
        assert View().sockets == old(View()).sockets[|sockets| - 1 := ws.View()];
      } else {
        assert View().sockets == old(View()).sockets;
      }
    }

    method Close()
      requires Valid()
      modifies this`shouldReconnect, ws`readyState
      ensures Valid() && View() == Step(old(View()), Event.Close)
    {
      shouldReconnect := false;
      ws.Close();
      assert View().sockets == old(View()).sockets[|sockets| - 1 := ws.View()];
    }

    /** A pending timer fires: _connect. */
    method Connect()
      requires Valid() && timers > 0
      modifies this`timers, this`ws, this`sockets
      ensures Valid() && fresh(ws) && sockets == old(sockets) + [ws]
      ensures View() == Step(old(View()), TimerFires)
    {
      timers := timers - 1;
      ws := new WebSocket();
      sockets := sockets + [ws];
      assert View().sockets == old(View()).sockets + [NEW_SOCKET];
    }

    /** The loop of onopen; an exception ends it. */
    method ReplayOn()
      requires Valid()
      modifies this`thrown, ws`sent
      ensures View() == SendAll(old(View()), Replay(channels))
    {
      for k := 0 to |channels|
        invariant ws.sent == if ws.readyState.OPEN? then old(ws.sent) + Replay(channels[..k]) else old(ws.sent)
        invariant thrown == old(thrown) && (k > 0 ==> !ws.readyState.CONNECTING?)
      {
        assert Replay(channels[..k + 1]) == Replay(channels[..k]) + [Sub(channels[k])];
        var threw := ws.Send(Sub(channels[k]));
        if threw {
          thrown := thrown + 1;
          assert View().sockets == old(View()).sockets;
          return;
        }
      }
      assert channels[..|channels|] == channels;
      assert View().sockets == old(View()).sockets[|sockets| - 1 := ws.View()];
      if !ws.readyState.OPEN? {
        assert View().sockets == old(View()).sockets;
      }
    }

    /** The open event of socket `w`: it is now open, and its handler replays the channels on `this.ws`. */
    method OnOpen(ghost i: nat, w: WebSocket)
      requires Valid() && i < |sockets| && sockets[i] == w && w.readyState == CONNECTING
      modifies this`backoff, this`waits, this`thrown, w`readyState, ws`sent
      ensures Valid() && View() == Step(old(View()), Opens(i))
    {
      ghost var start := View();
      assert start.sockets[i].readyState.CONNECTING?;
      w.readyState := OPEN;
      backoff := FIRST_BACKOFF;
      waits := [];
      ghost var reset := View();
      assert reset.sockets == start.sockets[i := start.sockets[i].(readyState := OPEN)];
      ReplayOn();
    }

    /** The close event of socket `w`, with the number Math.random() * 1000 drew. */
    method OnClose(ghost i: nat, w: WebSocket, code: int, jitter: real)
      requires Valid() && i < |sockets| && sockets[i] == w && !w.closeFired && 0.0 <= jitter < 1000.0
      modifies this`timers, this`backoff, this`waits, this`unauthorized, w`readyState, w`closeFired
      ensures Valid() && View() == Step(old(View()), Closes(i, code, jitter))
    {
      w.readyState := CLOSED;
      w.closeFired := true;
      assert View().sockets == old(View()).sockets[i := w.View()];
      if !shouldReconnect {
        return;
      }
      if code == UNAUTHORIZED {
        unauthorized := true;
        return;
      }
      var delay := backoff as real + jitter;
      waits := waits + [delay];
      timers := timers + 1;
      backoff := Min(backoff * 2, MAX_BACKOFF);
    }

    method OnError(ghost i: nat, w: WebSocket)
      requires Valid() && i < |sockets| && sockets[i] == w && !w.closeFired
      modifies ws`readyState
      ensures Valid() && View() == Step(old(View()), Errs(i))
    {
      ws.Close();
      assert View().sockets == old(View()).sockets[|sockets| - 1 := ws.View()];
    }
  }
}
