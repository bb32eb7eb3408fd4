/** What becomes of a write pump, told by the wake-ups it has had. */
module Pumps {
  import opened HubModel
  import opened Options
  import opened GatewaySystem
  import opened SystemInvariant
  import opened Guarantees

  ghost predicate Wakes<C>(a: Action<C>, c: C) {
    a.PumpWakes? && a.c == c
  }

  /** The wake-ups of one pump during a run, in order. */
  ghost function WakesOf<C>(run: seq<Action<C>>, c: C): seq<Wake> {
    if |run| == 0 then []
    else (if Wakes(run[0], c) then [run[0].wake] else []) + WakesOf(run[1..], c)
  }

  /** How many of them were frames. */
  function Frames(wakes: seq<Wake>): nat {
    if |wakes| == 0 then 0 else (if wakes[0].OnFrame? then 1 else 0) + Frames(wakes[1..])
  }

  /** Each of them was a frame that could be written. */
  ghost predicate AllWritten(wakes: seq<Wake>) {
    forall w | w in wakes :: w == OnFrame(true)
  }

  /** A pump after more wake-ups: it goes on as long as they are frames written without an error, and
      has acted on a reason if one of them was a signal. */
  ghost predicate Follows(p: Pump, p': Pump, wakes: seq<Wake>) {
    && (p'.running <==> p.running && AllWritten(wakes))
    && (p'.acted.Some? <==> p.acted.Some? || OnSignal in wakes)
    && |p'.taken| == |p.taken| + Frames(wakes)
  }

  lemma PumpAct<C>(cfg: Config, s: System<C>, a: Action<C>, c: C)
    requires Possible(s, a) && c in s.hub.conns && c in s.pumps
    ensures c in Act(cfg, s, a).hub.conns && c in Act(cfg, s, a).pumps
    ensures Follows(s.pumps[c], Act(cfg, s, a).pumps[c], if Wakes(a, c) then [a.wake] else [])
  {
    if a.HubServes? { ServesKeys(cfg, s.hub, a.e); }
    if Wakes(a, c) {
      assert [a.wake][1..] == [] && a.wake in [a.wake];
      assert AllWritten([a.wake]) <==> a.wake == OnFrame(true);
    } else {
      assert AllWritten([]);
    }
  }

  lemma {:induction false} FramesAppend(a: seq<Wake>, b: seq<Wake>)
    ensures Frames(a + b) == Frames(a) + Frames(b)
  {
    if |a| == 0 {
      assert a + b == b;
    } else {
      FramesAppend(a[1..], b);
      assert (a + b)[1..] == a[1..] + b;
    }
  }

  lemma FollowsTransitive(p0: Pump, p1: Pump, p2: Pump, a: seq<Wake>, b: seq<Wake>)
    requires Follows(p0, p1, a) && Follows(p1, p2, b)
    ensures Follows(p0, p2, a + b)
  {
    FramesAppend(a, b);
    forall w ensures w in a + b <==> w in a || w in b {
    }
  }

  lemma {:induction false} PumpRun<C>(cfg: Config, s: System<C>, run: seq<Action<C>>, c: C)
    requires IsRun(cfg, s, run) && c in s.hub.conns && c in s.pumps
    ensures c in After(cfg, s, run).pumps && Follows(s.pumps[c], After(cfg, s, run).pumps[c], WakesOf(run, c))
    decreases |run|
  {
    if |run| > 0 {
      var first := if Wakes(run[0], c) then [run[0].wake] else [];
      PumpAct(cfg, s, run[0], c);
      PumpRun(cfg, Act(cfg, s, run[0]), run[1..], c);
      FollowsTransitive(s.pumps[c], Act(cfg, s, run[0]).pumps[c], After(cfg, s, run).pumps[c], first, WakesOf(run[1..], c));
    }
  }

  lemma SameKeys<C>(cfg: Config, s: System<C>, a: Action<C>)
    requires Possible(s, a) && s.pumps.Keys == s.hub.conns.Keys
    ensures Act(cfg, s, a).pumps.Keys == Act(cfg, s, a).hub.conns.Keys
    ensures Act(cfg, s, a).hub.conns.Keys ==
            s.hub.conns.Keys + if a.HubServes? && a.e.PostRegister? then {a.e.c} else {}
    ensures a.HubServes? && a.e.PostRegister? ==> Act(cfg, s, a).pumps == s.pumps[a.e.c := Pump(true, [], None)]
  {
    if a.HubServes? { ServesKeys(cfg, s.hub, a.e); }
  }

  lemma {:induction false} KeysRun<C>(cfg: Config, s: System<C>, run: seq<Action<C>>)
    requires IsRun(cfg, s, run) && s.pumps.Keys == s.hub.conns.Keys
    ensures After(cfg, s, run).pumps.Keys == After(cfg, s, run).hub.conns.Keys
    decreases |run|
  {
    if |run| > 0 {
      SameKeys(cfg, s, run[0]);
      KeysRun(cfg, Act(cfg, s, run[0]), run[1..]);
    }
  }

  lemma {:induction false} PumpSinceAccepted<C>(cfg: Config, s: System<C>, run: seq<Action<C>>, c: C)
    requires IsRun(cfg, s, run) && s.pumps.Keys == s.hub.conns.Keys && c !in s.hub.conns
    ensures After(cfg, s, run).pumps.Keys == After(cfg, s, run).hub.conns.Keys
    ensures c in After(cfg, s, run).pumps ==>
              Follows(Pump(true, [], None), After(cfg, s, run).pumps[c], WakesOf(run, c))
    decreases |run|
  {
    if |run| > 0 {
      var t := Act(cfg, s, run[0]);
      SameKeys(cfg, s, run[0]);
      if c in t.hub.conns {
        assert t.pumps[c] == Pump(true, [], None) && !Wakes(run[0], c);
        PumpRun(cfg, t, run[1..], c);
        KeysRun(cfg, t, run[1..]);
      } else {
        PumpSinceAccepted(cfg, t, run[1..], c);
      }
      assert [] + WakesOf(run[1..], c) == WakesOf(run[1..], c);
    }
  }

  /** In every run the pump of a connection runs exactly if all it was woken by so far were frames it
      could write; it acted on a reason exactly if a signal woke it, and then on the first one the hub
      ever posted; and it took one frame for every time a frame woke it. */
  lemma PumpFollowsWakes<C>(cfg: Config, run: seq<Action<C>>, c: C)
    requires IsRun(cfg, Start(), run) && c in After(cfg, Start(), run).hub.conns
    ensures var s := After(cfg, Start(), run);
            var wakes := WakesOf(run, c);
            && c in s.pumps
            && (s.pumps[c].running <==> AllWritten(wakes))
            && (OnSignal in wakes ==> s.hub.conns[c].hist.signals != []
                                      && s.pumps[c].acted == Some(s.hub.conns[c].hist.signals[0]))
            && (OnSignal !in wakes ==> s.pumps[c].acted == None)
            && |s.pumps[c].taken| == Frames(wakes)
  {
    PumpSinceAccepted(cfg, Start(), run, c);
    FirstSignalWins(cfg, run, c);
  }

  /** When the pump takes the signal, it acts on the first reason the hub posted, empties the mailbox
      and has stopped. */
  lemma SignalIsActedOn<C>(cfg: Config, run: seq<Action<C>>, c: C)
    requires IsRun(cfg, Start(), run) && Possible(After(cfg, Start(), run), PumpWakes(c, OnSignal))
    ensures var s, t := After(cfg, Start(), run), Act(cfg, After(cfg, Start(), run), PumpWakes(c, OnSignal));
            && s.hub.conns[c].hist.signals != []
            && t.pumps[c].acted == Some(s.hub.conns[c].hist.signals[0])
            && !t.pumps[c].running && t.hub.conns[c].mailbox == None
  {
    var s := After(cfg, Start(), run);
    FirstSignalWins(cfg, run, c);
    PumpAct(cfg, s, PumpWakes(c, OnSignal), c);
    OneStep(cfg, s, PumpWakes(c, OnSignal));
    RunAppend(cfg, Start(), run, [PumpWakes(c, OnSignal)]);
    FirstSignalWins(cfg, run + [PumpWakes(c, OnSignal)], c);
  }

  /** The pump finds its queue closed only when the connection was removed and everything ever queued
      for it has been taken; nothing comes after that. */
  lemma ClosedMeansDrained<C>(cfg: Config, past: seq<Action<C>>, c: C, future: seq<Action<C>>)
    requires IsRun(cfg, Start(), past) && Possible(After(cfg, Start(), past), PumpWakes(c, OnClosed))
    requires IsRun(cfg, Act(cfg, After(cfg, Start(), past), PumpWakes(c, OnClosed)), future)
    ensures var s := After(cfg, Start(), past);
            var t := After(cfg, Act(cfg, s, PumpWakes(c, OnClosed)), future);
            && Gone(t.hub, c) && t.hub.conns[c].closes == 1 && t.hub.conns[c].send == []
            && c in t.pumps && !t.pumps[c].running && t.pumps[c].taken == s.pumps[c].taken
  {
    var s := After(cfg, Start(), past);
    var s' := Act(cfg, s, PumpWakes(c, OnClosed));
    EveryRunSound(cfg, past);
    assert ConnOk(s.hub.conns[c], s.pumps[c], c in s.hub.pending, c in s.hub.clients);
    ActSound(cfg, s, PumpWakes(c, OnClosed));
    PumpAct(cfg, s, PumpWakes(c, OnClosed), c);
    GoneForGood(cfg, s', future, c);
    StoppedForGood(cfg, s', future, c);
  }

  /** What a running pump can be woken by, in every run: a frame exactly while one is queued, the signal
      exactly if the hub ever posted one, the closed queue exactly once the connection was removed and
      nothing is queued any more, and its other exits at any time. */
  lemma PumpWakesExactlyWhen<C>(cfg: Config, run: seq<Action<C>>, c: C, ok: bool)
    requires IsRun(cfg, Start(), run) && c in After(cfg, Start(), run).hub.conns
    requires c in After(cfg, Start(), run).pumps && After(cfg, Start(), run).pumps[c].running
    ensures var s := After(cfg, Start(), run);
            var k := s.hub.conns[c];
            && (Possible(s, PumpWakes(c, OnFrame(ok))) <==> k.send != [])
            && (Possible(s, PumpWakes(c, OnSignal)) <==> k.hist.signals != [])
            && (Possible(s, PumpWakes(c, OnClosed)) <==>
                  c !in s.hub.pending && c !in s.hub.clients && k.closes == 1 && k.send == [])
            && Possible(s, PumpWakes(c, OnExit))
  {
    EveryRunSound(cfg, run);
    var s := After(cfg, Start(), run);
    assert ConnOk(s.hub.conns[c], s.pumps[c], c in s.hub.pending, c in s.hub.clients);
  }
}
