/** The refcount layer of gateway/redis.go on values: what one Subscribe or
    Unsubscribe call does to the counts, and which command it puts on the wire. */
module RedisModel {

  /** One command on the wire for a channel: SUBSCRIBE or UNSUBSCRIBE, and whether it succeeded. */
  datatype Cmd = Cmd(subscribe: bool, ok: bool)

  /** `counts` is activeChans; `log` records, channel by channel, the commands issued. */
  datatype Redis = Redis(counts: map<string, int>, closed: bool, log: map<string, seq<Cmd>>)

  const EMPTY := Redis(map[], false, map[])

  function Log(r: Redis, ch: string): seq<Cmd> {
    if ch in r.log then r.log[ch] else []
  }

  function Count(r: Redis, ch: string): int {
    if ch in r.counts then r.counts[ch] else 0
  }

  function Issue(r: Redis, ch: string, cmd: Cmd): Redis {
    r.(log := r.log[ch := Log(r, ch) + [cmd]])
  }

  /** `ok` is the outcome of the SUBSCRIBE command, should one be issued. */
  function Subscribe(r: Redis, ch: string, ok: bool): Redis {
    if r.closed then r
    else
      var n := Count(r, ch) + 1;
      if n == 1
      then Issue(r.(counts := r.counts[ch := if ok then 1 else 0]), ch, Cmd(true, ok))
      else r.(counts := r.counts[ch := n])
  }

  predicate SubscribeErrs(r: Redis, ch: string, ok: bool) {
    r.closed || (Count(r, ch) == 0 && !ok)
  }

  function Unsubscribe(r: Redis, ch: string, ok: bool): Redis {
    if r.closed || ch !in r.counts then r
    else if r.counts[ch] > 1 then r.(counts := r.counts[ch := r.counts[ch] - 1])
    else Issue(r.(counts := r.counts - {ch}), ch, Cmd(false, ok))
  }

  predicate UnsubscribeErrs(r: Redis, ch: string, ok: bool) {
    !r.closed && ch in r.counts && r.counts[ch] <= 1 && !ok
  }

  /** The commands in `log` leave the channel subscribed: the last one that succeeded is a SUBSCRIBE. */
  predicate OnWire(log: seq<Cmd>) {
    if |log| == 0 then false
    else if log[|log| - 1].ok then log[|log| - 1].subscribe
    else OnWire(log[..|log| - 1])
  }

  lemma OnWireStep(log: seq<Cmd>, cmd: Cmd)
    ensures OnWire(log + [cmd]) == if cmd.ok then cmd.subscribe else OnWire(log)
  {
  }

  /** SUBSCRIBE and UNSUBSCRIBE in turn, starting with SUBSCRIBE. */
  predicate InTurn(log: seq<Cmd>) {
    forall i | 0 <= i < |log| :: log[i].subscribe <==> i % 2 == 0
  }

  ghost predicate UnsubscribesSucceed(log: seq<Cmd>) {
    forall i | 0 <= i < |log| :: log[i].subscribe || log[i].ok
  }

  /** With no UNSUBSCRIBE failing, an alternating log leaves the channel on the wire exactly if it
      ends in a SUBSCRIBE that succeeded. */
  lemma WireAfterTurns(log: seq<Cmd>)
    requires InTurn(log) && UnsubscribesSucceed(log)
    ensures OnWire(log) <==> |log| % 2 == 1 && log[|log| - 1].ok
  {
  }

  /** Subscribe fails after Close and when its command does; Unsubscribe fails only when its command
      does. A call that issues no command and finds the subscriber open succeeds. */
  lemma ErrorsExactlyWhen(r: Redis, ch: string, ok: bool)
    ensures var log := Log(Subscribe(r, ch, ok), ch);
            && log[..|Log(r, ch)|] == Log(r, ch)
            && (SubscribeErrs(r, ch, ok) <==> r.closed || (|log| == |Log(r, ch)| + 1 && log[|log| - 1] == Cmd(true, false)))
    ensures var log := Log(Unsubscribe(r, ch, ok), ch);
            && log[..|Log(r, ch)|] == Log(r, ch)
            && (UnsubscribeErrs(r, ch, ok) <==> |log| == |Log(r, ch)| + 1 && log[|log| - 1] == Cmd(false, false))
  {
    var log := Log(r, ch);
    assert log[..|log|] == log;
    assert (log + [Cmd(true, ok)])[..|log|] == log && (log + [Cmd(false, ok)])[..|log|] == log;
  }

  // ---- Whole runs of calls before Close ----

  datatype Call = Sub(channel: string, ok: bool) | Unsub(channel: string, ok: bool)

  function Apply(r: Redis, call: Call): Redis {
    match call
    case Sub(ch, ok) => Subscribe(r, ch, ok)
    case Unsub(ch, ok) => Unsubscribe(r, ch, ok)
  }

  function From(r: Redis, calls: seq<Call>): Redis {
    if |calls| == 0 then r else Apply(From(r, calls[..|calls| - 1]), calls[|calls| - 1])
  }

  function Run(calls: seq<Call>): Redis {
    From(EMPTY, calls)
  }

  /** Calls to Subscribe minus calls to Unsubscribe, never going below zero. */
  function Balance(calls: seq<Call>, ch: string): nat {
    if |calls| == 0 then 0
    else
      var before, last := Balance(calls[..|calls| - 1], ch), calls[|calls| - 1];
      if last.channel != ch then before
      else if last.Sub? then before + 1
      else if before == 0 then 0 else before - 1
  }

  predicate Alternates(log: seq<Cmd>) {
    forall i | 0 <= i < |log| :: log[i] == Cmd(i % 2 == 0, true)
  }

  /** With every command succeeding, the stored count is the balance of the calls, and
      the wire sees SUBSCRIBE, UNSUBSCRIBE, SUBSCRIBE, ... with the channel subscribed
      exactly while the balance is positive. */
  lemma {:induction false} CountIsBalance(calls: seq<Call>, ch: string)
    requires forall i | 0 <= i < |calls| :: calls[i].ok
    ensures !Run(calls).closed
    ensures Count(Run(calls), ch) == Balance(calls, ch)
    ensures ch in Run(calls).counts <==> Balance(calls, ch) > 0
    ensures Alternates(Log(Run(calls), ch))
    ensures |Log(Run(calls), ch)| % 2 == 1 <==> Balance(calls, ch) > 0
    ensures OnWire(Log(Run(calls), ch)) <==> Balance(calls, ch) > 0
  {
    if |calls| > 0 {
      var front, last := calls[..|calls| - 1], calls[|calls| - 1];
      CountIsBalance(front, ch);
      OnWireStep(Log(Run(front), ch), Cmd(last.Sub?, true));
      assert Run(calls) == Apply(Run(front), last);
      if last.channel != ch {
        assert Log(Run(calls), ch) == Log(Run(front), ch);
      }
    }
  }

  /** One more call, whatever its command does. */
  lemma CallUnderFailure(r: Redis, call: Call, ch: string)
    requires !r.closed && Count(r, ch) >= 0 && (Count(r, ch) >= 1 ==> OnWire(Log(r, ch)))
    ensures var t := Apply(r, call);
            && !t.closed && Count(t, ch) >= 0 && (Count(t, ch) >= 1 ==> OnWire(Log(t, ch)))
            && ((OnWire(Log(r, ch)) <==> Count(r, ch) >= 1) && (call.channel == ch && call.Unsub? ==> call.ok)
                ==> (OnWire(Log(t, ch)) <==> Count(t, ch) >= 1))
  {
    OnWireStep(Log(r, ch), Cmd(call.Sub?, call.ok));
  }

  /** Whatever commands fail: no count is negative, a channel with a positive count is on the
      wire, and as long as no UNSUBSCRIBE failed nothing else is. */
  lemma {:induction false} CountsUnderFailure(calls: seq<Call>, ch: string)
    ensures !Run(calls).closed
    ensures Count(Run(calls), ch) >= 0
    ensures Count(Run(calls), ch) >= 1 ==> OnWire(Log(Run(calls), ch))
    ensures (forall i | 0 <= i < |calls| && calls[i].channel == ch :: calls[i].Unsub? ==> calls[i].ok)
              ==> (OnWire(Log(Run(calls), ch)) <==> Count(Run(calls), ch) >= 1)
  {
    if |calls| > 0 {
      var front, last := calls[..|calls| - 1], calls[|calls| - 1];
      CountsUnderFailure(front, ch);
      CallUnderFailure(Run(front), last, ch);
      assert forall i | 0 <= i < |front| :: front[i] == calls[i];
    }
  }

  /** The last clause is not vacuous: a failed UNSUBSCRIBE leaves a channel on the wire that
      nobody counts. */
  lemma FailedUnsubscribeLeavesWire(ch: string)
    ensures var r := Run([Sub(ch, true), Unsub(ch, false)]);
            ch !in r.counts && OnWire(Log(r, ch))
  {
    var one: seq<Call> := [Sub(ch, true)];
    var two: seq<Call> := [Sub(ch, true), Unsub(ch, false)];
    assert one[..0] == [] && two[..1] == one;
    assert Run([]) == EMPTY;
    OnWireStep([], Cmd(true, true));
    OnWireStep([Cmd(true, true)], Cmd(false, false));
    assert Log(Run(one), ch) == [Cmd(true, true)];
    assert Log(Run(two), ch) == [Cmd(true, true), Cmd(false, false)];
  }

  /** After Close no call changes a count or issues a command. */
  lemma {:induction false} ClosedForGood(r: Redis, calls: seq<Call>)
    requires r.closed
    ensures From(r, calls) == r
  {
    if |calls| > 0 {
      ClosedForGood(r, calls[..|calls| - 1]);
    }
  }
}
