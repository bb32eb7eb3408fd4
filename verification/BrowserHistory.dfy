/** What the browser client has come to, told by the events it went through and by nothing else. */
module BrowserHistory {
  import opened ReconnectModel
  import opened Options

  lemma {:induction false} RunFront(c: Client, es: seq<Event>)
    requires IsRun(c, es) && |es| > 0
    ensures IsRun(c, es[..|es| - 1]) && Enabled(After(c, es[..|es| - 1]), es[|es| - 1])
    ensures After(c, es) == Step(After(c, es[..|es| - 1]), es[|es| - 1])
    decreases |es|
  {
    if |es| == 1 {
      assert es[..0] == [] && es[1..] == [];
    } else {
      RunFront(Step(c, es[0]), es[1..]);
      var n := |es| - 1;
      assert es[..n][1..] == es[1..][..n - 1] && es[..n][0] == es[0];
    }
  }

  // ---- The subscription set ----

  /** Whether the last call of subscribe() or unsubscribe() naming the channel was a subscribe(). */
  function LastEdit(es: seq<Event>, ch: string): Option<bool> {
    if |es| == 0 then None
    else
      match es[|es| - 1]
      case Subscribe(x) => if x == ch then Some(true) else LastEdit(es[..|es| - 1], ch)
      case Unsubscribe(x) => if x == ch then Some(false) else LastEdit(es[..|es| - 1], ch)
      case _ => LastEdit(es[..|es| - 1], ch)
  }

  lemma {:induction false} SetOfMembers(options: seq<string>, ch: string)
    ensures ch in SetOf(options) <==> ch in options
  {
    if |options| > 0 {
      SetOfMembers(options[..|options| - 1], ch);
      assert options == options[..|options| - 1] + [options[|options| - 1]];
    }
  }

  lemma EditedMembers(c: Client, e: Event, ch: string)
    requires Inv(c) && Enabled(c, e)
    ensures ch in Step(c, e).channels <==>
            if e.Subscribe? && e.channel == ch then true
            else if e.Unsubscribe? && e.channel == ch then false
            else ch in c.channels
  {
    if e.Unsubscribe? { DeleteDistinct(c.channels, e.channel); }
  }

  /** In every run, across reconnects and edits made while offline: a channel is in the set exactly if
      the last call naming it was subscribe(), or, with no such call, if it was given at construction. */
  lemma {:induction false} ChannelsFollowEdits(options: seq<string>, es: seq<Event>, ch: string)
    requires IsRun(Construct(options), es)
    ensures ch in After(Construct(options), es).channels <==>
            if LastEdit(es, ch).Some? then LastEdit(es, ch).value else ch in options
    decreases |es|
  {
    if |es| == 0 {
      SetOfMembers(options, ch);
    } else {
      var front := es[..|es| - 1];
      RunFront(Construct(options), es);
      ChannelsFollowEdits(options, front, ch);
      ConstructInv(options);
      RunInv(Construct(options), front);
      EditedMembers(After(Construct(options), front), es[|es| - 1], ch);
    }
  }

  // ---- The frames on an open socket ----

  /** The frames of the calls of subscribe() and unsubscribe(), in order. */
  function Edits(es: seq<Event>): seq<Sent> {
    if |es| == 0 then []
    else (match es[0] case Subscribe(x) => [Sub(x)] case Unsubscribe(x) => [Unsub(x)] case _ => []) + Edits(es[1..])
  }

  predicate Shut(w: Socket) {
    w.readyState.CLOSING? || w.readyState.CLOSED?
  }

  lemma SocketsStep(c: Client, e: Event)
    requires Enabled(c, e)
    ensures |c.sockets| <= |Step(c, e).sockets|
  {
  }

  lemma {:induction false} SocketsGrow(c: Client, es: seq<Event>)
    requires Inv(c) && IsRun(c, es)
    ensures |After(c, es).sockets| >= |c.sockets| > 0
    decreases |es|
  {
    if |es| > 0 {
      StepInv(c, es[0]);
      SocketsStep(c, es[0]);
      SocketsGrow(Step(c, es[0]), es[1..]);
    }
  }

  lemma ShutStep(c: Client, e: Event)
    requires Inv(c) && Enabled(c, e) && Shut(Current(c))
    ensures |Step(c, e).sockets| == |c.sockets| ==> Shut(Current(Step(c, e)))
  {
  }

  lemma {:induction false} StaysShut(c: Client, es: seq<Event>)
    requires Inv(c) && IsRun(c, es) && Shut(Current(c)) && |After(c, es).sockets| == |c.sockets|
    ensures Shut(Current(After(c, es)))
    decreases |es|
  {
    if |es| > 0 {
      StepInv(c, es[0]);
      ShutStep(c, es[0]);
      SocketsStep(c, es[0]);
      SocketsGrow(Step(c, es[0]), es[1..]);
      StaysShut(Step(c, es[0]), es[1..]);
    }
  }

  lemma OpenStep(c: Client, e: Event)
    requires Inv(c) && Enabled(c, e) && Current(c).readyState.OPEN?
    ensures var d := Step(c, e);
            && |d.sockets| == |c.sockets|
            && (Current(d).readyState.OPEN? ==> Current(d).sent == Current(c).sent + Edits([e]))
            && (!Current(d).readyState.OPEN? ==> Shut(Current(d)))
  {
    assert [e][1..] == [];
    assert Current(c).sent + [] == Current(c).sent;
  }

  /** A socket that is open later has been open all the time. */
  lemma OpenThroughout(c: Client, es: seq<Event>)
    requires Inv(c) && IsRun(c, es) && |es| > 0 && Current(c).readyState.OPEN?
    requires |After(c, es).sockets| == |c.sockets| && Current(After(c, es)).readyState.OPEN?
    ensures Current(Step(c, es[0])).readyState.OPEN? && Inv(Step(c, es[0]))
  {
    StepInv(c, es[0]);
    OpenStep(c, es[0]);
    if !Current(Step(c, es[0])).readyState.OPEN? { StaysShut(Step(c, es[0]), es[1..]); }
  }

  lemma Joined(a: seq<Sent>, b: seq<Sent>, c: seq<Sent>)
    ensures a + b + c == a + (b + c)
  {
  }

  lemma EditsFirst(es: seq<Event>)
    requires |es| > 0
    ensures Edits(es) == Edits([es[0]]) + Edits(es[1..])
  {
    assert [es[0]][1..] == [];
  }

  /** As long as a socket stays open it is sent one frame for every call of subscribe() and
      unsubscribe(), in order, and nothing else. */
  lemma {:induction false} OpenSocketFrames(c: Client, es: seq<Event>)
    requires Inv(c) && IsRun(c, es) && Current(c).readyState.OPEN?
    requires |After(c, es).sockets| == |c.sockets| && Current(After(c, es)).readyState.OPEN?
    ensures Current(After(c, es)).sent == Current(c).sent + Edits(es)
    decreases |es|
  {
    if |es| > 0 {
      OpenThroughout(c, es);
      OpenStep(c, es[0]);
      EditsFirst(es);
      OpenSocketFrames(Step(c, es[0]), es[1..]);
      Joined(Current(c).sent, Edits([es[0]]), Edits(es[1..]));
    }
  }

  /** When a socket opens it is sent one subscribe frame for every channel of the set, in order. */
  lemma OpeningReplays(c: Client, i: nat)
    requires Inv(c) && Enabled(c, Opens(i))
    ensures var d := Step(c, Opens(i));
            && d.channels == c.channels && i == |c.sockets| - 1 == |d.sockets| - 1
            && d.sockets[i].readyState.OPEN? && |d.sockets[i].sent| == |c.channels|
            && forall k | 0 <= k < |c.channels| :: d.sockets[i].sent[k] == Sub(c.channels[k])
  {
    OpensInv(c, Opens(i));
  }

  /** An error on a socket leaves none connecting or open. */
  lemma ErrorShuts(c: Client, i: nat)
    requires Inv(c) && Enabled(c, Errs(i))
    ensures Quiet(Step(c, Errs(i)))
  {
  }

  lemma ClosingShuts(c: Client, i: nat)
    requires Enabled(c, StartsClosing(i))
    ensures Shut(Step(c, StartsClosing(i)).sockets[i])
  {
  }

  /** What the browser can bring next, in every run: only the last socket can still open, err or close,
      it can do so as long as its close event has not fired, and timers fire while one is pending. */
  lemma WhatCanHappen(options: seq<string>, es: seq<Event>, i: nat, code: int, jitter: real)
    requires IsRun(Construct(options), es) && 0.0 <= jitter < 1000.0
    ensures var c := After(Construct(options), es);
            && |c.sockets| > 0
            && (Enabled(c, Opens(i)) <==> i == |c.sockets| - 1 && Current(c).readyState.CONNECTING?)
            && (Enabled(c, StartsClosing(i)) <==> i == |c.sockets| - 1 && !Shut(Current(c)))
            && (Enabled(c, Errs(i)) <==> i == |c.sockets| - 1 && !Current(c).readyState.CLOSED?)
            && (Enabled(c, Closes(i, code, jitter)) <==> i == |c.sockets| - 1 && !Current(c).readyState.CLOSED?)
            && (Enabled(c, TimerFires) <==> c.timers == 1)
            && Enabled(c, Close) && Enabled(c, Subscribe("")) && Enabled(c, Unsubscribe(""))
  {
    ConstructInv(options);
    RunInv(Construct(options), es);
  }

  /** Sending on a socket that is still connecting would throw; no event in a run does. */
  lemma SendingTooEarlyThrows(c: Client, frames: seq<Sent>)
    requires |c.sockets| > 0
    ensures SendAll(c, frames).thrown > c.thrown <==> Current(c).readyState.CONNECTING? && frames != []
  {
  }

  // ---- Reconnecting ----

  /** Events of the client up to the last one: close() was called. */
  predicate Closed(es: seq<Event>) {
    Close in es
  }

  /** A close with 4401 that found the client not closed. */
  predicate Unauthorized(es: seq<Event>) {
    |es| > 0 &&
    var front, last := es[..|es| - 1], es[|es| - 1];
    Unauthorized(front) || (last.Closes? && last.code == 4401 && !Closed(front))
  }

  /** The random parts drawn since construction or the last open: one for each close event but those
      with 4401 and those after close(). */
  function Jitters(es: seq<Event>): seq<real> {
    if |es| == 0 then []
    else
      var front, last := es[..|es| - 1], es[|es| - 1];
      if last.Opens? then []
      else if last.Closes? && last.code != 4401 && !Closed(front) then Jitters(front) + [last.jitter]
      else Jitters(front)
  }

  lemma ClosedNext(es: seq<Event>)
    requires |es| > 0
    ensures Closed(es) <==> Closed(es[..|es| - 1]) || es[|es| - 1].Close?
  {
    assert es == es[..|es| - 1] + [es[|es| - 1]];
  }

  ghost predicate Remembers(c: Client, es: seq<Event>) {
    && (c.shouldReconnect <==> !Closed(es)) && (c.unauthorized <==> Unauthorized(es))
    && |c.waits| == |Jitters(es)|
    && c.backoff == Backoff(|Jitters(es)|)
    && forall k | 0 <= k < |c.waits| :: c.waits[k] == Backoff(k) as real + Jitters(es)[k]
  }

  lemma RemembersNext(c: Client, es: seq<Event>)
    requires |es| > 0 && Inv(c) && Enabled(c, es[|es| - 1]) && Remembers(c, es[..|es| - 1])
    ensures Remembers(Step(c, es[|es| - 1]), es)
  {
    ClosedNext(es);
    BackoffGrows(|c.waits|);
    assert Backoff(0) == 1000;
  }

  /** In every run, with n close events since construction or the last open that led to a reconnect: the
      backoff is min(1000 * 2^n, 30000), so 1000 right after an open, and the k-th delay was its backoff
      plus the random part drawn for it. */
  lemma {:induction false} DelaysFollowEvents(options: seq<string>, es: seq<Event>)
    requires IsRun(Construct(options), es)
    ensures Remembers(After(Construct(options), es), es)
    ensures After(Construct(options), es).backoff == Min(1000 * Pow2(|Jitters(es)|), 30000)
    decreases |es|
  {
    if |es| > 0 {
      RunFront(Construct(options), es);
      DelaysFollowEvents(options, es[..|es| - 1]);
      ConstructInv(options);
      RunInv(Construct(options), es[..|es| - 1]);
      RemembersNext(After(Construct(options), es[..|es| - 1]), es);
    }
  }

  /** In every run: while neither close() was called nor a close with 4401 came, exactly one socket is
      live or one timer pending. */
  lemma OneTokenUntilStopped(options: seq<string>, es: seq<Event>)
    requires IsRun(Construct(options), es) && !Closed(es) && !Unauthorized(es)
    ensures var c := After(Construct(options), es);
            Live(c.sockets) + c.timers == 1
  {
    OneToken(options, es);
    DelaysFollowEvents(options, es);
  }

  /** Without a timer and a live socket nothing can bring a socket back. */
  lemma {:induction false} NoTimersNoSockets(c: Client, es: seq<Event>)
    requires Inv(c) && c.timers == 0 && Current(c).closeFired && IsRun(c, es)
    ensures |After(c, es).sockets| == |c.sockets| && After(c, es).timers == 0
    decreases |es|
  {
    if |es| > 0 {
      StepInv(c, es[0]);
      NoTimersNoSockets(Step(c, es[0]), es[1..]);
    }
  }

  /** A close with 4401 is final: no socket is ever created again, whatever happens. */
  lemma UnauthorizedCloseIsFinal(c: Client, i: nat, jitter: real, es: seq<Event>)
    requires Inv(c) && Enabled(c, Closes(i, 4401, jitter)) && IsRun(Step(c, Closes(i, 4401, jitter)), es)
    ensures |After(Step(c, Closes(i, 4401, jitter)), es).sockets| == |c.sockets|
    ensures After(Step(c, Closes(i, 4401, jitter)), es).timers == 0
  {
    var d := Step(c, Closes(i, 4401, jitter));
    StepInv(c, Closes(i, 4401, jitter));
    NoTimersNoSockets(d, es);
  }

  /** Some future has one more socket. */
  ghost predicate ComesBack(c: Client) {
    exists es :: IsRun(c, es) && |After(c, es).sockets| > |c.sockets|
  }

  /** After a socket closed, the client connects again in some future exactly if close() was not called
      before and the code is not 4401. */
  lemma ComesBackExactlyWhen(c: Client, i: nat, code: int, jitter: real)
    requires Inv(c) && Enabled(c, Closes(i, code, jitter))
    ensures var d := Step(c, Closes(i, code, jitter));
            ComesBack(d) <==> c.shouldReconnect && code != 4401
  {
    var d := Step(c, Closes(i, code, jitter));
    StepInv(c, Closes(i, code, jitter));
    if c.shouldReconnect && code != 4401 {
      var es: seq<Event> := [TimerFires];
      assert es[1..] == [];
      assert IsRun(Step(d, es[0]), es[1..]);
      assert IsRun(d, es) && |After(d, es).sockets| == |c.sockets| + 1;
    } else {
      forall es | IsRun(d, es) ensures |After(d, es).sockets| == |c.sockets| {
        NoTimersNoSockets(d, es);
      }
    }
  }
}
