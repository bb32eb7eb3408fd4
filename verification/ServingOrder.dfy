/** The hub loops over Go maps, whose iteration order is arbitrary. Serving one member after
    another, in any order, ends in the pointwise update of HubModel. */
module ServingOrder {
  import opened RedisModel
  import opened HubModel

  // ---- One round of each loop ----

  function DeliverOne<C>(s: State<C>, c: C, f: Frame): State<C>
    requires c in s.conns
  {
    s.(conns := s.conns[c := Push(s.conns[c], f)],
       posts := if Full(s.conns[c]) then s.posts + multiset{c} else s.posts)
  }

  function SignalOne<C>(s: State<C>, c: C, r: Reason): State<C>
    requires c in s.conns
  {
    s.(conns := s.conns[c := Signal(s.conns[c], r)])
  }

  function RemoveFromChannel<C>(s: State<C>, c: C, ch: string, fail: set<string>): State<C> {
    if ch !in s.channels then s
    else if s.channels[ch] - {c} == {}
    then s.(channels := s.channels - {ch}, redis := Unsubscribe(s.redis, ch, Succeeds(ch, fail)))
    else s.(channels := s.channels[ch := s.channels[ch] - {c}])
  }

  /** `c` off every channel in `chs` at once. */
  function Removed<C>(s: State<C>, c: C, chs: set<string>, fail: set<string>): State<C> {
    s.(channels := Leave(s.channels, c, chs),
       redis := UnsubscribeAll(s.redis, Emptied(s.channels, c, chs), fail))
  }

  function SignalledAll<C>(s: State<C>, to: set<C>, r: Reason): State<C> {
    s.(conns := SignalAll(s.conns, to, r))
  }

  // ---- One more round extends the pointwise update by one member ----

  lemma DeliverNone<C>(s: State<C>, f: Frame)
    ensures Deliver(s, {}, f) == s
  {
  }

  lemma DeliverNext<C>(s: State<C>, done: set<C>, c: C, f: Frame)
    requires c in s.conns && c !in done
    ensures DeliverOne(Deliver(s, done, f), c, f) == Deliver(s, done + {c}, f)
  {
  }

  lemma SignalNone<C>(s: State<C>, r: Reason)
    ensures SignalledAll(s, {}, r) == s
  {
  }

  lemma SignalNext<C>(s: State<C>, done: set<C>, c: C, r: Reason)
    requires c in s.conns && c !in done
    ensures SignalOne(SignalledAll(s, done, r), c, r) == SignalledAll(s, done + {c}, r)
  {
  }

  lemma CountsNext(r: Redis, done: set<string>, ch: string)
    requires ch !in done
    ensures var rest := Decrement(r.counts, done) - Released(r, done);
            && (ch in rest <==> ch in r.counts) && (ch in rest ==> rest[ch] == r.counts[ch])
            && Decrement(r.counts, done + {ch}) - Released(r, done + {ch}) ==
               if ch !in r.counts then rest
               else if r.counts[ch] > 1 then rest[ch := r.counts[ch] - 1]
               else rest - {ch}
  {
  }

  lemma LogNext(r: Redis, done: set<string>, ch: string, fail: set<string>)
    requires ch !in done
    ensures var log := r.log + Closings(r, Released(r, done), fail);
            && (ch in log <==> ch in r.log) && (ch in log ==> log[ch] == r.log[ch])
            && r.log + Closings(r, Released(r, done + {ch}), fail) ==
               if ch in r.counts && r.counts[ch] <= 1
               then log[ch := Log(r, ch) + [Cmd(false, Succeeds(ch, fail))]] else log
  {
  }

  lemma UnsubscribeNext(r: Redis, done: set<string>, ch: string, fail: set<string>)
    requires ch !in done
    ensures Unsubscribe(UnsubscribeAll(r, done, fail), ch, Succeeds(ch, fail)) == UnsubscribeAll(r, done + {ch}, fail)
  {
    CountsNext(r, done, ch);
    LogNext(r, done, ch, fail);
  }

  lemma RemovedNone<C>(s: State<C>, c: C, fail: set<string>)
    ensures Removed(s, c, {}, fail) == s
  {
  }

  lemma RemovedNext<C>(s: State<C>, c: C, done: set<string>, ch: string, fail: set<string>)
    requires ch !in done
    ensures RemoveFromChannel(Removed(s, c, done, fail), c, ch, fail) == Removed(s, c, done + {ch}, fail)
  {
    var one, two := Removed(s, c, done, fail), Removed(s, c, done + {ch}, fail);
    var next := RemoveFromChannel(one, c, ch, fail);
    assert ch in one.channels <==> ch in s.channels;
    assert next.channels == two.channels;
    if ch in s.channels && s.channels[ch] - {c} == {} {
      assert Emptied(s.channels, c, done + {ch}) == Emptied(s.channels, c, done) + {ch};
      UnsubscribeNext(s.redis, Emptied(s.channels, c, done), ch, fail);
    } else {
      assert Emptied(s.channels, c, done + {ch}) == Emptied(s.channels, c, done);
    }
  }

  // ---- Whole loops, for every enumeration of the members ----

  ghost predicate Enumerates<T>(order: seq<T>, to: set<T>) {
    && (forall x | x in order :: x in to)
    && (forall x | x in to :: x in order)
    && forall i, j | 0 <= i < j < |order| :: order[i] != order[j]
  }

  lemma EnumerateFront<T>(order: seq<T>, to: set<T>)
    requires Enumerates(order, to) && |order| > 0
    ensures var last := order[|order| - 1];
            && last in to && Enumerates(order[..|order| - 1], to - {last})
            && (to - {last}) + {last} == to
  {
  }

  function DeliverInTurn<C>(s: State<C>, order: seq<C>, f: Frame): (t: State<C>)
    requires forall c | c in order :: c in s.conns
    ensures t.conns.Keys == s.conns.Keys
  {
    if |order| == 0 then s
    else DeliverOne(DeliverInTurn(s, order[..|order| - 1], f), order[|order| - 1], f)
  }

  function SignalInTurn<C>(s: State<C>, order: seq<C>, r: Reason): (t: State<C>)
    requires forall c | c in order :: c in s.conns
    ensures t.conns.Keys == s.conns.Keys
  {
    if |order| == 0 then s
    else SignalOne(SignalInTurn(s, order[..|order| - 1], r), order[|order| - 1], r)
  }

  function RemoveInTurn<C>(s: State<C>, c: C, order: seq<string>, fail: set<string>): State<C> {
    if |order| == 0 then s
    else RemoveFromChannel(RemoveInTurn(s, c, order[..|order| - 1], fail), c, order[|order| - 1], fail)
  }

  /** handleIncoming: append if there is room, else first-wins 4408 and one unregister post. */
  lemma {:induction false} DeliveryOrderIrrelevant<C>(s: State<C>, to: set<C>, order: seq<C>, f: Frame)
    requires to <= s.conns.Keys && Enumerates(order, to)
    ensures DeliverInTurn(s, order, f) == Deliver(s, to, f)
  {
    if |order| == 0 {
      assert to == {};
      DeliverNone(s, f);
    } else {
      EnumerateFront(order, to);
      var last := order[|order| - 1];
      DeliveryOrderIrrelevant(s, to - {last}, order[..|order| - 1], f);
      DeliverNext(s, to - {last}, last, f);
    }
  }

  /** handleControlMessage: first-wins 4401 for every candidate. */
  lemma {:induction false} SignalOrderIrrelevant<C>(s: State<C>, to: set<C>, order: seq<C>, r: Reason)
    requires to <= s.conns.Keys && Enumerates(order, to)
    ensures SignalInTurn(s, order, r) == SignalledAll(s, to, r)
  {
    if |order| == 0 {
      assert to == {};
      SignalNone(s, r);
    } else {
      EnumerateFront(order, to);
      var last := order[|order| - 1];
      SignalOrderIrrelevant(s, to - {last}, order[..|order| - 1], r);
      SignalNext(s, to - {last}, last, r);
    }
  }

  /** handleUnregister: all memberships gone, and the same commands on the wire. */
  lemma {:induction false} RemovalOrderIrrelevant<C>(s: State<C>, c: C, chs: set<string>, order: seq<string>, fail: set<string>)
    requires Enumerates(order, chs)
    ensures RemoveInTurn(s, c, order, fail) == Removed(s, c, chs, fail)
  {
    if |order| == 0 {
      assert chs == {};
      RemovedNone(s, c, fail);
    } else {
      EnumerateFront(order, chs);
      var last := order[|order| - 1];
      RemovalOrderIrrelevant(s, c, chs - {last}, order[..|order| - 1], fail);
      RemovedNext(s, c, chs - {last}, last, fail);
    }
  }
}
