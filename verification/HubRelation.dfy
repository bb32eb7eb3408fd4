/** The hub refines a plain relation: who is registered, and who is on which channel. */
module HubRelation {
  import opened ChannelNames
  import opened HubModel
  import opened HubInvariant

  datatype Rel<C(==)> = Rel(registered: set<C>, on: set<(C, string)>)

  ghost function Abs<C>(s: State<C>): Rel<C>
    requires s.clients <= s.conns.Keys
  {
    Rel(s.clients, set c, ch | c in s.clients && ch in s.conns[c].subscribed :: (c, ch))
  }

  ghost function OnChannel<C>(r: Rel<C>, ch: string): set<C> {
    set p | p in r.on && p.1 == ch :: p.0
  }

  ghost function OfUser<C>(r: Rel<C>, who: map<C, Conn>, u: int): set<C> {
    set c | c in r.registered && c in who && who[c].userID == u
  }

  /** The relation determines both indexes, so nothing in them is stale, missing or empty. */
  lemma IndexesFromRelation<C>(s: State<C>)
    requires Indexed(s)
    ensures forall ch :: Members(s.channels, ch) == OnChannel(Abs(s), ch)
    ensures forall ch :: ch in s.channels <==> OnChannel(Abs(s), ch) != {}
    ensures forall u :: Members(s.userClients, u) == OfUser(Abs(s), s.conns, u)
    ensures forall u :: u in s.userClients <==> OfUser(Abs(s), s.conns, u) != {}
  {
    forall ch ensures Members(s.channels, ch) == OnChannel(Abs(s), ch) {
      forall c ensures c in Members(s.channels, ch) <==> c in OnChannel(Abs(s), ch) {
        if c in s.clients {
          assert ch in s.conns[c].subscribed <==> c in Members(s.channels, ch);
          assert c in OnChannel(Abs(s), ch) <==> (c, ch) in Abs(s).on;
        }
      }
    }
    forall u ensures Members(s.userClients, u) == OfUser(Abs(s), s.conns, u) {
      forall c ensures c in Members(s.userClients, u) <==> c in OfUser(Abs(s), s.conns, u) {
        if c in s.clients {
          assert s.conns[c].userID == u <==> c in Members(s.userClients, u);
        }
      }
    }
  }

  ghost predicate Refused<C>(cfg: Config, r: Rel<C>, who: map<C, Conn>, u: int) {
    || (cfg.maxTotal > 0 && |r.registered| >= cfg.maxTotal)
    || (cfg.maxPerUser > 0 && |OfUser(r, who, u)| >= cfg.maxPerUser)
  }

  /** Each request is one set operation on the relation. `who` says who the connections are. */
  ghost function RelStep<C>(cfg: Config, r: Rel<C>, who: map<C, Conn>, e: Event<C>): Rel<C> {
    match e
    case Register(c, _) =>
      if c !in who || Refused(cfg, r, who, who[c].userID) then r
      else Rel(r.registered + {c},
               r.on + {(c, SessionChannel(who[c].sessionKey)), (c, UserChannel(who[c].userID))})
    case Unregister(c, _) => Rel(r.registered - {c}, set p | p in r.on && p.0 != c)
    case ClientSubscribe(c, ch, _) =>
      if c in r.registered && c in who && ValidName(ch) && !Reserved(ch) && ch in who[c].allowed
      then r.(on := r.on + {(c, ch)})
      else r
    case ClientUnsubscribe(c, ch, _) => r.(on := r.on - {(c, ch)})
    case _ => r
  }

  lemma AbsAddSubscription<C>(s: State<C>, c: C, ch: string, fail: set<string>)
    requires s.clients <= s.conns.Keys && c in s.clients
    ensures var t := AddSubscription(s, c, ch, fail);
            Abs(t) == Abs(s).(on := Abs(s).on + {(c, ch)})
  {
  }

  lemma AbsSame<C>(s: State<C>, t: State<C>)
    requires s.clients <= s.conns.Keys && t.clients <= t.conns.Keys && s.clients == t.clients
    requires forall c | c in s.clients :: s.conns[c].subscribed == t.conns[c].subscribed
    ensures Abs(s) == Abs(t)
  {
  }

  /** The check on the user's bucket is the check on the relation. */
  lemma RefusalRefines<C>(cfg: Config, s: State<C>, c: C)
    requires Indexed(s) && c in s.conns
    ensures OverTotal(cfg, s) || OverUser(cfg, s, s.conns[c].userID)
            <==> Refused(cfg, Abs(s), s.conns, s.conns[c].userID)
  {
    IndexesFromRelation(s);
    var u := s.conns[c].userID;
    assert Members(s.userClients, u) == OfUser(Abs(s), s.conns, u);
    assert u in s.userClients <==> OfUser(Abs(s), s.conns, u) != {};
  }

  lemma AdmitRefines<C>(s: State<C>, c: C, fail: set<string>)
    requires Indexed(s) && c in s.pending
    ensures var k := s.conns[c];
            var j := Join(s.(pending := s.pending - {c}), c);
            var t := AddSubscription(AddSubscription(j, c, SessionChannel(k.sessionKey), fail), c, UserChannel(k.userID), fail);
            && t.clients <= t.conns.Keys
            && Abs(t) == Rel(s.clients + {c},
                             Abs(s).on + {(c, SessionChannel(k.sessionKey)), (c, UserChannel(k.userID))})
  {
  }

  lemma RefusedSameIndex<C>(cfg: Config, s: State<C>, c: C, fail: set<string>)
    requires c in s.conns && c !in s.pending && (OverTotal(cfg, s) || OverUser(cfg, s, s.conns[c].userID))
    ensures var t := HandleRegister(cfg, s.(pending := s.pending + {c}), c, fail);
            && t.clients == s.clients && t.conns.Keys == s.conns.Keys
            && forall d | d in s.conns :: t.conns[d].subscribed == s.conns[d].subscribed
  {
  }

  lemma RegisterRefines<C>(cfg: Config, s: State<C>, c: C, fail: set<string>)
    requires Indexed(s) && c in s.pending
    ensures HandleRegister(cfg, s, c, fail).clients <= HandleRegister(cfg, s, c, fail).conns.Keys
    ensures Abs(HandleRegister(cfg, s, c, fail)) == RelStep(cfg, Abs(s), s.conns, Register(c, fail))
  {
    RefusalRefines(cfg, s, c);
    var s1 := s.(pending := s.pending - {c});
    assert s1.(pending := s1.pending + {c}) == s;
    assert OverTotal(cfg, s1) == OverTotal(cfg, s);
    assert OverUser(cfg, s1, s.conns[c].userID) == OverUser(cfg, s, s.conns[c].userID);
    if Refused(cfg, Abs(s), s.conns, s.conns[c].userID) {
      RefusedSameIndex(cfg, s1, c, fail);
      AbsSame(s, HandleRegister(cfg, s, c, fail));
    } else {
      AdmitRefines(s, c, fail);
    }
  }

  lemma UnregisterRefines<C>(s: State<C>, c: C, fail: set<string>)
    requires Indexed(s) && c in s.conns
    ensures HandleUnregister(s, c, fail).clients <= HandleUnregister(s, c, fail).conns.Keys
    ensures Abs(HandleUnregister(s, c, fail)) == Rel(s.clients - {c}, set p | p in Abs(s).on && p.0 != c)
  {
  }

  lemma SubscribeRefines<C>(s: State<C>, c: C, ch: string, fail: set<string>)
    requires Indexed(s) && c in s.conns
    ensures HandleSubscribe(s, c, ch, fail).clients <= HandleSubscribe(s, c, ch, fail).conns.Keys
    ensures Abs(HandleSubscribe(s, c, ch, fail)) ==
            if c in s.clients && ValidName(ch) && !Reserved(ch) && ch in s.conns[c].allowed
            then Abs(s).(on := Abs(s).on + {(c, ch)}) else Abs(s)
  {
    if c in s.clients && ValidName(ch) && !Reserved(ch) && ch in s.conns[c].allowed {
      AbsAddSubscription(s, c, ch, fail);
    } else {
      AbsSame(s, HandleSubscribe(s, c, ch, fail));
    }
  }

  lemma UnsubscribeRefines<C>(s: State<C>, c: C, ch: string, fail: set<string>)
    requires Indexed(s) && c in s.conns
    ensures HandleUnsubscribe(s, c, ch, fail).clients <= HandleUnsubscribe(s, c, ch, fail).conns.Keys
    ensures Abs(HandleUnsubscribe(s, c, ch, fail)) == Abs(s).(on := Abs(s).on - {(c, ch)})
  {
  }

  lemma IncomingRefines<C>(s: State<C>, msg: Message)
    requires Indexed(s) && Indexed(HandleIncoming(s, msg))
    ensures Abs(HandleIncoming(s, msg)) == Abs(s)
  {
    AbsSame(s, HandleIncoming(s, msg));
  }

  /** Every handler of the hub is the corresponding operation on the relation. */
  lemma StepRefines<C>(cfg: Config, s: State<C>, e: Event<C>)
    requires Indexed(s) && Enabled(s, e)
    ensures Indexed(Step(cfg, s, e))
    ensures Abs(Step(cfg, s, e)) == RelStep(cfg, Abs(s), s.conns, e)
  {
    StepIndexed(cfg, s, e);
    match e
    case Register(c, fail) => RegisterRefines(cfg, s, c, fail);
    case Unregister(c, fail) => UnregisterRefines(s, c, fail);
    case ClientSubscribe(c, ch, fail) => SubscribeRefines(s, c, ch, fail);
    case ClientUnsubscribe(c, ch, fail) => UnsubscribeRefines(s, c, ch, fail);
    case Incoming(msg) => IncomingRefines(s, msg);
    case _ => AbsSame(s, Step(cfg, s, e));
  }

  // ---- Counting the same pairs by rows and by columns ----

  /** The sum of the sizes of the buckets of an index. */
  ghost function Total<K, V>(m: map<K, set<V>>): nat
    decreases m.Keys
  {
    if m == map[] then 0
    else var k :| k in m; |m[k]| + Total(m - {k})
  }

  ghost function Pairs<K, V>(m: map<K, set<V>>): set<(K, V)> {
    set k, v | k in m && v in m[k] :: (k, v)
  }

  lemma {:induction false} ImageSize<T, U>(s: set<T>, f: T -> U, image: set<U>)
    requires forall x, y | x in s && y in s && f(x) == f(y) :: x == y
    requires image == set x | x in s :: f(x)
    ensures |image| == |s|
    decreases s
  {
    if s != {} {
      var x :| x in s;
      ImageSize(s - {x}, f, set y | y in s - {x} :: f(y));
      assert image == (set y | y in s - {x} :: f(y)) + {f(x)};
    }
  }

  lemma {:induction false} TotalIsPairs<K, V>(m: map<K, set<V>>)
    ensures Total(m) == |Pairs(m)|
    decreases m.Keys
  {
    if m == map[] {
      assert Pairs(m) == {};
    } else {
      var k :| k in m && Total(m) == |m[k]| + Total(m - {k});
      TotalIsPairs(m - {k});
      var row := set v | v in m[k] :: (k, v);
      ImageSize(m[k], v => (k, v), row);
      assert Pairs(m) == row + Pairs(m - {k});
      assert row !! Pairs(m - {k});
    }
  }

  ghost function SubscribedBy<C>(s: State<C>): map<C, set<string>>
    requires s.clients <= s.conns.Keys
  {
    map c | c in s.clients :: s.conns[c].subscribed
  }

  lemma SubscribedByPairs<C>(s: State<C>)
    requires s.clients <= s.conns.Keys
    ensures Pairs(SubscribedBy(s)) == Abs(s).on
    ensures Total(SubscribedBy(s)) == |Abs(s).on|
  {
    TotalIsPairs(SubscribedBy(s));
    assert Pairs(SubscribedBy(s)) == Abs(s).on;
  }

  /** A set of pairs and the same pairs the other way round are equally large. */
  lemma SwappedSize<A, B>(on: set<(A, B)>, off: set<(B, A)>)
    requires forall a, b :: (a, b) in on <==> (b, a) in off
    ensures |on| == |off|
  {
    var swapped := set p | p in on :: (p.1, p.0);
    ImageSize(on, (p: (A, B)) => (p.1, p.0), swapped);
    assert swapped == off by {
      forall q: (B, A) ensures q in swapped <==> q in off {
        assert q == (q.0, q.1);
        assert (q.1, q.0) in on <==> q in off;
        if q in off { assert ((q.1, q.0).1, (q.1, q.0).0) in swapped; }
      }
    }
  }

  lemma ChannelPairs<C>(s: State<C>, c: C, ch: string)
    requires Indexed(s)
    ensures (c, ch) in Abs(s).on <==> (ch, c) in Pairs(s.channels)
  {
    if c in s.clients {
      assert ch in s.conns[c].subscribed <==> c in Members(s.channels, ch);
    }
  }

  lemma ByChannel<C>(s: State<C>)
    requires Indexed(s)
    ensures Total(s.channels) == |Abs(s).on|
  {
    TotalIsPairs(s.channels);
    forall c, ch ensures (c, ch) in Abs(s).on <==> (ch, c) in Pairs(s.channels) {
      ChannelPairs(s, c, ch);
    }
    SwappedSize(Abs(s).on, Pairs(s.channels));
  }

  lemma UserPairs<C>(s: State<C>, u: int, c: C)
    requires Indexed(s)
    ensures (u, c) in Pairs(s.userClients) <==> c in s.clients && s.conns[c].userID == u
  {
    if c in s.clients {
      assert s.conns[c].userID == u <==> c in Members(s.userClients, u);
    }
  }

  lemma {:induction false} PairedSize<C>(clients: set<C>, conns: map<C, Conn>)
    requires clients <= conns.Keys
    ensures |set c | c in clients :: (conns[c].userID, c)| == |clients|
    decreases clients
  {
    if clients != {} {
      var x :| x in clients;
      PairedSize(clients - {x}, conns);
      assert (set c | c in clients :: (conns[c].userID, c)) ==
             (set c | c in clients - {x} :: (conns[c].userID, c)) + {(conns[x].userID, x)};
    }
  }

  lemma ByUser<C>(s: State<C>)
    requires Indexed(s)
    ensures Total(s.userClients) == |s.clients|
  {
    TotalIsPairs(s.userClients);
    var whose := set c | c in s.clients :: (s.conns[c].userID, c);
    PairedSize(s.clients, s.conns);
    forall p: (int, C) ensures p in Pairs(s.userClients) <==> p in whose {
      UserPairs(s, p.0, p.1);
      assert p == (p.0, p.1);
    }
    assert Pairs(s.userClients) == whose;
  }

  /** Conservation: the memberships counted channel by channel are those counted client by client,
      and the users' buckets together hold every client once. */
  lemma DoubleCounting<C>(s: State<C>)
    requires Indexed(s)
    ensures Total(s.channels) == Total(SubscribedBy(s)) == |Abs(s).on|
    ensures Total(s.userClients) == |s.clients|
  {
    ByChannel(s);
    SubscribedByPairs(s);
    ByUser(s);
  }
}
