/** The browser client of static/websocket_gateway/client.js on values: its sockets, its timers,
    its subscription set, and the events that drive it in any order the browser allows. */
module ReconnectModel {

  const FIRST_BACKOFF := 1000
  const MAX_BACKOFF := 30000
  const UNAUTHORIZED := 4401

  datatype ReadyState = CONNECTING | OPEN | CLOSING | CLOSED

  datatype Sent = Sub(channel: string) | Unsub(channel: string)

  /** `closeFired`: the socket's close event has fired, its last event. */
  datatype Socket = Socket(readyState: ReadyState, sent: seq<Sent>, closeFired: bool)

  const NEW_SOCKET := Socket(CONNECTING, [], false)

  /** `sockets` are all ever created; `this.ws` is the last. `channels` is a JavaScript Set: in
      order of insertion, without duplicates. `timers` are the pending reconnect timers.
      History: `waits` are the delays of the reconnects scheduled since construction or the last
      open, `unauthorized` tells that a close with 4401 stopped the client, `thrown` counts sends
      on a socket still connecting. */
  datatype Client = Client(
    sockets: seq<Socket>, channels: seq<string>, backoff: int, shouldReconnect: bool, timers: nat,
    waits: seq<real>, unauthorized: bool, thrown: nat)

  datatype Event =
    | Subscribe(channel: string)
    | Unsubscribe(channel: string)
    | Close
    | Opens(i: nat)
    | StartsClosing(i: nat)
    | Errs(i: nat)
    | Closes(i: nat, code: int, jitter: real)
    | TimerFires

  // ---- JavaScript sets ----

  predicate Distinct(chs: seq<string>) {
    forall i, j | 0 <= i < j < |chs| :: chs[i] != chs[j]
  }

  function Add(chs: seq<string>, ch: string): seq<string> {
    if ch in chs then chs else chs + [ch]
  }

  function Delete(chs: seq<string>, ch: string): (r: seq<string>)
    ensures forall x :: x in r ==> x in chs
  {
    if |chs| == 0 then []
    else if chs[0] == ch then chs[1..]
    else [chs[0]] + Delete(chs[1..], ch)
  }

  function SetOf(options: seq<string>): seq<string> {
    if |options| == 0 then [] else Add(SetOf(options[..|options| - 1]), options[|options| - 1])
  }

  // ---- Steps ----

  function Construct(options: seq<string>): Client {
    Client([NEW_SOCKET], SetOf(options), FIRST_BACKOFF, true, 0, [], false, 0)
  }

  predicate Enabled(c: Client, e: Event) {
    |c.sockets| > 0 &&
    match e
    case Opens(i) => i < |c.sockets| && c.sockets[i].readyState.CONNECTING?
    case StartsClosing(i) => i < |c.sockets| && (c.sockets[i].readyState.CONNECTING? || c.sockets[i].readyState.OPEN?)
    case Errs(i) => i < |c.sockets| && !c.sockets[i].closeFired
    case Closes(i, _, jitter) => i < |c.sockets| && !c.sockets[i].closeFired && 0.0 <= jitter < 1000.0
    case TimerFires => c.timers > 0
    case _ => true
  }

  function Current(c: Client): Socket
    requires |c.sockets| > 0
  {
    c.sockets[|c.sockets| - 1]
  }

  function SetCurrent(c: Client, w: Socket): Client
    requires |c.sockets| > 0
  {
    c.(sockets := c.sockets[|c.sockets| - 1 := w])
  }

  /** Sends `frames` on `this.ws`: silently dropped on a closing socket, an exception on a connecting one. */
  function SendAll(c: Client, frames: seq<Sent>): Client
    requires |c.sockets| > 0
  {
    var w := Current(c);
    match w.readyState
    case OPEN => SetCurrent(c, w.(sent := w.sent + frames))
    case CONNECTING => if frames == [] then c else c.(thrown := c.thrown + 1)
    case _ => c
  }

  function CloseSocket(w: Socket): Socket {
    if w.readyState.CONNECTING? || w.readyState.OPEN? then w.(readyState := CLOSING) else w
  }

  function Replay(chs: seq<string>): (frames: seq<Sent>)
    ensures |frames| == |chs|
  {
    seq(|chs|, i requires 0 <= i < |chs| => Sub(chs[i]))
  }

  function Min(a: int, b: int): int {
    if a <= b then a else b
  }

  function Step(c: Client, e: Event): (c': Client)
    requires Enabled(c, e)
    ensures |c'.sockets| > 0
  {
    match e
    case Subscribe(ch) =>
      var added := c.(channels := Add(c.channels, ch));
      if Current(c).readyState.OPEN? then SendAll(added, [Sub(ch)]) else added
    case Unsubscribe(ch) =>
      var removed := c.(channels := Delete(c.channels, ch));
      if Current(c).readyState.OPEN? then SendAll(removed, [Unsub(ch)]) else removed
    case Close => SetCurrent(c, CloseSocket(Current(c))).(shouldReconnect := false)
    case Opens(i) =>
      var reset := c.(sockets := c.sockets[i := c.sockets[i].(readyState := OPEN)],
                       backoff := FIRST_BACKOFF, waits := []);
      SendAll(reset, Replay(c.channels))
    case StartsClosing(i) => c.(sockets := c.sockets[i := CloseSocket(c.sockets[i])])
    case Errs(_) => SetCurrent(c, CloseSocket(Current(c)))
    case Closes(i, code, jitter) =>
      var closed := c.(sockets := c.sockets[i := c.sockets[i].(readyState := CLOSED, closeFired := true)]);
      if !c.shouldReconnect then closed
      else if code == UNAUTHORIZED then closed.(unauthorized := true)
      else closed.(timers := c.timers + 1,
                   waits := c.waits + [c.backoff as real + jitter],
                   backoff := Min(c.backoff * 2, MAX_BACKOFF))
    case TimerFires => c.(timers := c.timers - 1, sockets := c.sockets + [NEW_SOCKET])
  }

  predicate IsRun(c: Client, es: seq<Event>)
    decreases |es|
  {
    |es| == 0 || (Enabled(c, es[0]) && IsRun(Step(c, es[0]), es[1..]))
  }

  function After(c: Client, es: seq<Event>): Client
    requires IsRun(c, es)
    decreases |es|
  {
    if |es| == 0 then c else After(Step(c, es[0]), es[1..])
  }

  // ---- The invariant ----

  /** What the frames sent on a socket ask the gateway for. */
  function Asked(sent: seq<Sent>): seq<string> {
    if |sent| == 0 then []
    else
      var before, last := Asked(sent[..|sent| - 1]), sent[|sent| - 1];
      if last.Sub? then Add(before, last.channel) else Delete(before, last.channel)
  }

  /** Sockets whose close event has not fired. */
  function Live(sockets: seq<Socket>): nat {
    if |sockets| == 0 then 0
    else Live(sockets[..|sockets| - 1]) + if sockets[|sockets| - 1].closeFired then 0 else 1
  }

  function Pow2(n: nat): nat {
    if n == 0 then 1 else 2 * Pow2(n - 1)
  }

  /** The closed form of the n-th backoff. */
  function Backoff(n: nat): int {
    Min(1000 * Pow2(n), MAX_BACKOFF)
  }

  ghost predicate Inv(c: Client) {
    && |c.sockets| > 0
    && (forall i | 0 <= i < |c.sockets| - 1 :: c.sockets[i].closeFired)
    && (forall i | 0 <= i < |c.sockets| :: c.sockets[i].closeFired <==> c.sockets[i].readyState.CLOSED?)
    && (!Current(c).closeFired ==> c.timers == 0) && c.timers <= 1
    && (c.unauthorized ==> Current(c).closeFired && c.timers == 0)
    && (c.shouldReconnect && !c.unauthorized && Current(c).closeFired ==> c.timers == 1)
    && Distinct(c.channels)
    && (Current(c).readyState.OPEN? ==> Asked(Current(c).sent) == c.channels)
    && (Current(c).readyState.CONNECTING? ==> Current(c).sent == [])
    && c.thrown == 0
    && c.backoff == Backoff(|c.waits|)
    && (forall k | 0 <= k < |c.waits| :: Backoff(k) as real <= c.waits[k] < Backoff(k) as real + 1000.0)
  }

  lemma {:induction false} DeleteDistinct(chs: seq<string>, ch: string)
    requires Distinct(chs)
    ensures Distinct(Delete(chs, ch)) && ch !in Delete(chs, ch)
    ensures forall x | x in chs && x != ch :: x in Delete(chs, ch)
  {
    if |chs| > 0 {
      DeleteDistinct(chs[1..], ch);
      assert Distinct(chs[1..]);
      if chs[0] != ch {
        assert chs[0] !in Delete(chs[1..], ch);
      }
    }
  }

  lemma {:induction false} SetOfDistinct(options: seq<string>)
    ensures Distinct(SetOf(options))
  {
    if |options| > 0 {
      SetOfDistinct(options[..|options| - 1]);
    }
  }

  lemma AskedSnoc(sent: seq<Sent>, f: Sent)
    ensures Asked(sent + [f]) == if f.Sub? then Add(Asked(sent), f.channel) else Delete(Asked(sent), f.channel)
  {
  }

  /** Replaying a set on a fresh socket asks for that set, in its order. */
  lemma {:induction false} AskedReplay(chs: seq<string>)
    requires Distinct(chs)
    ensures Asked(Replay(chs)) == chs
  {
    if |chs| > 0 {
      var n := |chs| - 1;
      AskedReplay(chs[..n]);
      assert Replay(chs) == Replay(chs[..n]) + [Sub(chs[n])];
      AskedSnoc(Replay(chs[..n]), Sub(chs[n]));
      assert chs[n] !in chs[..n] && chs == chs[..n] + [chs[n]];
    }
  }

  lemma {:induction false} BackoffGrows(n: nat)
    ensures Pow2(n) >= 1 && Backoff(n) >= FIRST_BACKOFF
    ensures Min(Backoff(n) * 2, MAX_BACKOFF) == Backoff(n + 1)
  {
    if n > 0 {
      BackoffGrows(n - 1);
    }
  }

  lemma SubscribeInv(c: Client, ch: string)
    requires Inv(c)
    ensures Inv(Step(c, Subscribe(ch)))
  {
  }

  lemma UnsubscribeInv(c: Client, ch: string)
    requires Inv(c)
    ensures Inv(Step(c, Unsubscribe(ch)))
  {
    DeleteDistinct(c.channels, ch);
    AskedSnoc(Current(c).sent, Unsub(ch));
  }

  lemma ClosesInv(c: Client, e: Event)
    requires Inv(c) && Enabled(c, e) && e.Closes?
    ensures Inv(Step(c, e))
  {
  }

  lemma OpensInv(c: Client, e: Event)
    requires Inv(c) && Enabled(c, e) && e.Opens?
    ensures Inv(Step(c, e))
  {
    var n, d := |c.sockets| - 1, Step(c, e);
    assert e.i == n && Current(c).sent == [] && !Current(c).closeFired;
    assert d.sockets == c.sockets[n := Socket(OPEN, Replay(c.channels), false)] by {
      assert [] + Replay(c.channels) == Replay(c.channels);
    }
    AskedReplay(c.channels);
    assert Backoff(0) == FIRST_BACKOFF;
  }

  lemma StepInv(c: Client, e: Event)
    requires Inv(c) && Enabled(c, e)
    ensures Inv(Step(c, e))
  {
    match e
    case Opens(_) => OpensInv(c, e);
    case Closes(_, _, _) => ClosesInv(c, e);
    case Subscribe(ch) => SubscribeInv(c, ch);
    case Unsubscribe(ch) => UnsubscribeInv(c, ch);
    case _ =>
  }

  lemma {:induction false} RunInv(c: Client, es: seq<Event>)
    requires Inv(c) && IsRun(c, es)
    ensures Inv(After(c, es))
    decreases |es|
  {
    if |es| > 0 {
      StepInv(c, es[0]);
      RunInv(Step(c, es[0]), es[1..]);
    }
  }

  lemma ConstructInv(options: seq<string>)
    ensures Inv(Construct(options))
  {
    SetOfDistinct(options);
  }

  // ---- One connection token ----

  lemma {:induction false} AllFired(sockets: seq<Socket>)
    requires forall i | 0 <= i < |sockets| :: sockets[i].closeFired
    ensures Live(sockets) == 0
  {
    if |sockets| > 0 {
      AllFired(sockets[..|sockets| - 1]);
    }
  }

  /** In every run, live sockets and pending timers together are at most one, and exactly one until
      close() or a close with 4401. */
  lemma OneToken(options: seq<string>, es: seq<Event>)
    requires IsRun(Construct(options), es)
    ensures var c := After(Construct(options), es);
            && Live(c.sockets) + c.timers <= 1
            && (c.shouldReconnect && !c.unauthorized ==> Live(c.sockets) + c.timers == 1)
  {
    ConstructInv(options);
    RunInv(Construct(options), es);
    var c := After(Construct(options), es);
    AllFired(c.sockets[..|c.sockets| - 1]);
  }

  /** After a close with 4401 no socket is ever created again. */
  lemma {:induction false} UnauthorizedIsFinal(c: Client, es: seq<Event>)
    requires Inv(c) && c.unauthorized && IsRun(c, es)
    ensures |After(c, es).sockets| == |c.sockets|
    decreases |es|
  {
    if |es| > 0 {
      StepInv(c, es[0]);
      UnauthorizedIsFinal(Step(c, es[0]), es[1..]);
    }
  }

  /** After close() no timer is scheduled again, so at most one more socket is created: the one of a
      timer that was already pending, which close() does not cancel. */
  lemma {:induction false} AfterClose(c: Client, es: seq<Event>)
    requires Inv(c) && !c.shouldReconnect && IsRun(c, es)
    ensures After(c, es).timers + |After(c, es).sockets| == c.timers + |c.sockets|
    ensures |After(c, es).sockets| >= |c.sockets|
    ensures !After(c, es).shouldReconnect
    decreases |es|
  {
    if |es| > 0 {
      StepInv(c, es[0]);
      AfterClose(Step(c, es[0]), es[1..]);
    }
  }

  /** No socket is connecting or open. */
  predicate Quiet(c: Client) {
    forall i | 0 <= i < |c.sockets| :: c.sockets[i].readyState.CLOSING? || c.sockets[i].readyState.CLOSED?
  }

  lemma {:induction false} StaysQuiet(c: Client, es: seq<Event>)
    requires Inv(c) && !c.shouldReconnect && c.timers == 0 && Quiet(c) && IsRun(c, es)
    ensures Quiet(After(c, es))
    decreases |es|
  {
    if |es| > 0 {
      StepInv(c, es[0]);
      StaysQuiet(Step(c, es[0]), es[1..]);
    }
  }

  /** And none ever will be. */
  ghost predicate QuietForGood(c: Client) {
    forall es | IsRun(c, es) :: Quiet(After(c, es))
  }

  /** close() leaves the client without a connecting or open socket for good exactly when no
      reconnect timer is pending. */
  lemma CloseIsFinalExactlyWhen(c: Client)
    requires Inv(c)
    ensures c.timers == 0 <==> QuietForGood(Step(c, Close))
  {
    var d := Step(c, Close);
    StepInv(c, Close);
    if c.timers == 0 {
      assert Quiet(d);
      forall es | IsRun(d, es) ensures Quiet(After(d, es)) {
        StaysQuiet(d, es);
      }
    } else {
      var es: seq<Event> := [TimerFires];
      assert es[1..] == [];
      assert IsRun(Step(d, es[0]), es[1..]);
      assert IsRun(d, es) && After(d, es) == Step(d, TimerFires);
      assert After(d, es).sockets[|d.sockets|] == NEW_SOCKET;
      assert !Quiet(After(d, es));
      assert !QuietForGood(d);
    }
  }

  /** A run that shows it: the server closes, close() is called, the timer still connects. */
  lemma CloseMissesTimer()
    ensures exists es :: IsRun(Construct([]), es) && Close in es
                         && |After(Construct([]), es).sockets| > 0
                         && Current(After(Construct([]), es)).readyState.CONNECTING?
                         && !After(Construct([]), es).shouldReconnect
  {
    var es: seq<Event> := [Closes(0, 1006, 0.0), Close, TimerFires];
    var c0 := Construct([]);
    var c1 := Step(c0, es[0]);
    var c2 := Step(c1, Close);
    var c3 := Step(c2, TimerFires);
    var tail1: seq<Event> := [Close, TimerFires];
    var tail2: seq<Event> := [TimerFires];
    assert es[1..] == tail1 && tail1[1..] == tail2 && tail2[1..] == [];
    assert IsRun(c2, tail2) && After(c2, tail2) == c3;
    assert IsRun(c1, tail1) && After(c1, tail1) == c3;
    assert IsRun(c0, es) && After(c0, es) == c3;
    assert es[1] == Close;
  }

  // ---- Subscription replay ----

  /** In every run, across reconnects and edits made while offline: when the current socket is open,
      what its frames ask for is the client's subscription set, and no send ever threw. */
  lemma ReplayIsFaithful(options: seq<string>, es: seq<Event>)
    requires IsRun(Construct(options), es)
    ensures var c := After(Construct(options), es);
            && |c.sockets| > 0 && c.thrown == 0
            && (Current(c).readyState.OPEN? ==> Asked(Current(c).sent) == c.channels)
  {
    ConstructInv(options);
    RunInv(Construct(options), es);
  }

  // ---- Backoff ----

  function Sum(xs: seq<real>): real {
    if |xs| == 0 then 0.0 else Sum(xs[..|xs| - 1]) + xs[|xs| - 1]
  }

  /** The least total delay of the first n reconnects. */
  function LeastTotal(n: nat): int {
    if n <= 5 then 1000 * (Pow2(n) - 1) else 31000 + 30000 * (n - 5)
  }

  lemma {:induction false} Pow2Grows(n: nat)
    requires n >= 5
    ensures Pow2(n) >= 32
  {
    if n > 5 {
      Pow2Grows(n - 1);
    } else {
      assert Pow2(5) == 2 * Pow2(4) && Pow2(4) == 2 * Pow2(3) && Pow2(3) == 2 * Pow2(2);
    }
  }

  lemma LeastTotalStep(n: nat)
    ensures LeastTotal(n + 1) == LeastTotal(n) + Backoff(n)
  {
    assert Pow2(5) == 32;
    if n >= 5 {
      Pow2Grows(n);
    } else {
      assert n == 0 || n == 1 || n == 2 || n == 3 || n == 4;
    }
  }

  lemma {:induction false} TotalWait(waits: seq<real>)
    requires forall k | 0 <= k < |waits| :: Backoff(k) as real <= waits[k] < Backoff(k) as real + 1000.0
    ensures LeastTotal(|waits|) as real <= Sum(waits) <= (LeastTotal(|waits|) + 1000 * |waits|) as real
  {
    if |waits| > 0 {
      var n := |waits| - 1;
      TotalWait(waits[..n]);
      LeastTotalStep(n);
    } else {
      assert Pow2(0) == 1;
    }
  }

  /** In every run, after n reconnecting closes since construction or the last open: the backoff is
      min(1000 * 2^n, 30000), the k-th delay lay within a second above its backoff, and the total
      delay is at least 1000 * (2^n - 1) up to n = 5 and 31000 + 30000 * (n - 5) beyond. */
  lemma BackoffClosedForm(options: seq<string>, es: seq<Event>)
    requires IsRun(Construct(options), es)
    ensures var c := After(Construct(options), es);
            var n := |c.waits|;
            && c.backoff == Min(1000 * Pow2(n), 30000)
            && (forall k | 0 <= k < n :: Backoff(k) as real <= c.waits[k] < Backoff(k) as real + 1000.0)
            && LeastTotal(n) as real <= Sum(c.waits) <= (LeastTotal(n) + 1000 * n) as real
  {
    ConstructInv(options);
    RunInv(Construct(options), es);
    TotalWait(After(Construct(options), es).waits);
  }

  /** The announced cap on the delay is 30 s. The delay a close schedules exceeds it exactly when five
      reconnects were scheduled before it without an open in between and the random part is not 0. */
  lemma DelayExceedsCapExactlyWhen(c: Client, i: nat, code: int, jitter: real)
    requires Inv(c) && Enabled(c, Closes(i, code, jitter)) && c.shouldReconnect && code != UNAUTHORIZED
    ensures var waits := Step(c, Closes(i, code, jitter)).waits;
            && |waits| == |c.waits| + 1 && waits[..|c.waits|] == c.waits
            && (waits[|c.waits|] > 30000.0 <==> |c.waits| >= 5 && jitter > 0.0)
  {
    var n := |c.waits|;
    if n >= 5 {
      Pow2Grows(n);
    } else {
      assert Pow2(4) == 16 && Pow2(3) == 8;
      assert n == 0 || n == 1 || n == 2 || n == 3 || n == 4;
    }
  }

  /** `n` sockets in a row that fail before they open, each with half a second of jitter. */
  function Failures(first: nat, n: nat): seq<Event>
    decreases n
  {
    if n == 0 then [] else [Closes(first, 1006, 500.0), TimerFires] + Failures(first + 1, n - 1)
  }

  lemma {:induction false} FailuresRun(c: Client, n: nat)
    requires Inv(c) && c.shouldReconnect && !c.unauthorized && !Current(c).closeFired
    ensures IsRun(c, Failures(|c.sockets| - 1, n))
    ensures var d := After(c, Failures(|c.sockets| - 1, n));
            && Inv(d) && d.shouldReconnect && !d.unauthorized && |d.sockets| == |c.sockets| + n
            && !Current(d).closeFired && |d.waits| == |c.waits| + n
    decreases n
  {
    if n > 0 {
      var first := |c.sockets| - 1;
      var es := Failures(first, n);
      var closed := Step(c, es[0]);
      StepInv(c, es[0]);
      StepInv(closed, TimerFires);
      FailuresRun(Step(closed, TimerFires), n - 1);
      assert es[1..][0] == TimerFires && es[1..][1..] == Failures(first + 1, n - 1);
      assert IsRun(closed, es[1..]);
    }
  }

  /** A run that shows it: after five failures the sixth waits longer than 30 s. */
  lemma DelayExceedsCap()
    ensures IsRun(Construct([]), Failures(0, 5))
    ensures var c := After(Construct([]), Failures(0, 5));
            && Enabled(c, Closes(5, 1006, 500.0))
            && |Step(c, Closes(5, 1006, 500.0)).waits| == 6
            && Step(c, Closes(5, 1006, 500.0)).waits[5] == 30500.0
  {
    ConstructInv([]);
    FailuresRun(Construct([]), 5);
    Pow2Grows(5);
  }
}
