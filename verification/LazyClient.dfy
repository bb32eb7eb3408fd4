/** The shared Redis client of websocket_gateway/publish.py: double-checked construction under a
    lock, by any number of threads, with every access to the module global a step of its own. */
module LazyClient {
  import opened Options

  /** Where a thread is in `_get_client`. */
  datatype At =
    | Checking                      // the check outside the lock
    | ReturningFast                 // about to read the global again and return it
    | Acquiring
    | CheckingInside                // holds the lock from here on
    | Building
    | Assigning(built: nat)
    | ReadingInside
    | Leaving(value: Option<nat>)   // has read the global, about to release the lock
    | Returned(value: Option<nat>)
    | Raised

  /** Clients are numbered in the order they were built. */
  datatype State = State(client: Option<nat>, lock: Option<nat>, threads: map<nat, At>, built: nat)

  const START := State(None, None, map[], 0)

  /** `Build` may raise. */
  datatype Action = Call | Check | ReturnFast | Acquire | CheckInside | Build(ok: bool) | Assign | ReadInside | Leave

  predicate Enabled(s: State, t: nat, a: Action) {
    if a.Call? then t !in s.threads
    else
      t in s.threads &&
      match a
      case Call => false
      case Check => s.threads[t].Checking?
      case ReturnFast => s.threads[t].ReturningFast?
      case Acquire => s.threads[t].Acquiring? && s.lock.None?
      case CheckInside => s.threads[t].CheckingInside?
      case Build(_) => s.threads[t].Building?
      case Assign => s.threads[t].Assigning?
      case ReadInside => s.threads[t].ReadingInside?
      case Leave => s.threads[t].Leaving?
  }

  function Move(s: State, t: nat, at: At): State {
    s.(threads := s.threads[t := at])
  }

  function Step(s: State, t: nat, a: Action): State
    requires Enabled(s, t, a)
  {
    match a
    case Call => Move(s, t, Checking)
    case Check => Move(s, t, if s.client.Some? then ReturningFast else Acquiring)
    case ReturnFast => Move(s, t, Returned(s.client))
    case Acquire => Move(s, t, CheckingInside).(lock := Some(t))
    case CheckInside => Move(s, t, if s.client.None? then Building else ReadingInside)
    case Build(ok) =>
      if ok then Move(s, t, Assigning(s.built)).(built := s.built + 1)
      else Move(s, t, Raised).(lock := None)
    case Assign => Move(s, t, ReadingInside).(client := Some(s.threads[t].built))
    case ReadInside => Move(s, t, Leaving(s.client))
    case Leave => Move(s, t, Returned(s.threads[t].value)).(lock := None)
  }

  predicate Holding(at: At) {
    at.CheckingInside? || at.Building? || at.Assigning? || at.ReadingInside? || at.Leaving?
  }

  ghost predicate Inv(s: State) {
    && (s.lock.Some? ==> s.lock.value in s.threads)
    && (forall t | t in s.threads :: Holding(s.threads[t]) <==> s.lock == Some(t))
    && (s.client.Some? ==> s.built == 1 && s.client.value == 0)
    && (s.client.None? ==>
          s.built == if s.lock.Some? && s.threads[s.lock.value].Assigning? then 1 else 0)
    && (forall t | t in s.threads ::
          match s.threads[t]
          case Building => s.client.None?
          case Assigning(o) => s.client.None? && o == 0
          case ReturningFast => s.client.Some?
          case ReadingInside => s.client.Some?
          case Leaving(v) => s.client.Some? && v == s.client
          case Returned(v) => s.client.Some? && v == s.client
          case _ => true)
  }

  datatype Turn = Turn(thread: nat, action: Action)

  predicate IsRun(s: State, run: seq<Turn>)
    decreases |run|
  {
    |run| == 0 || (Enabled(s, run[0].thread, run[0].action) &&
                   IsRun(Step(s, run[0].thread, run[0].action), run[1..]))
  }

  function After(s: State, run: seq<Turn>): State
    requires IsRun(s, run)
    decreases |run|
  {
    if |run| == 0 then s else After(Step(s, run[0].thread, run[0].action), run[1..])
  }

  lemma StepInv(s: State, t: nat, a: Action)
    requires Inv(s) && Enabled(s, t, a)
    ensures Inv(Step(s, t, a))
    ensures s.client.Some? ==> Step(s, t, a).client == s.client
  {
  }

  /** `_client` is set at most once, in every continuation of every reachable state. */
  lemma {:induction false} RunInv(s: State, run: seq<Turn>)
    requires Inv(s) && IsRun(s, run)
    ensures Inv(After(s, run))
    ensures s.client.Some? ==> After(s, run).client == s.client
    decreases |run|
  {
    if |run| > 0 {
      StepInv(s, run[0].thread, run[0].action);
      RunInv(Step(s, run[0].thread, run[0].action), run[1..]);
    }
  }

  /** Once the client is cached, a call gets it without the lock, whoever holds it. */
  lemma CachedNeedsNoLock(s: State, t: nat)
    requires Inv(s) && s.client.Some? && t !in s.threads
    ensures Enabled(s, t, Call) && Enabled(Step(s, t, Call), t, Check)
    ensures Enabled(Step(Step(s, t, Call), t, Check), t, ReturnFast)
    ensures var r := Step(Step(Step(s, t, Call), t, Check), t, ReturnFast);
            r.threads[t] == Returned(s.client) && r.lock == s.lock && r.client == s.client && r.built == s.built
  {
  }

  /** However many threads, however interleaved, and whichever constructions raise: at most one client
      is built, and every thread that returns gets that client, the one in the global. */
  lemma SingleConstruction(run: seq<Turn>, t: nat)
    requires IsRun(START, run)
    ensures var s := After(START, run);
            && s.built <= 1
            && (t in s.threads && s.threads[t].Returned? ==>
                  s.built == 1 && s.client.Some? && s.threads[t].value == s.client)
  {
    RunInv(START, run);
  }

  lemma {:induction false} RunSnoc(s: State, run: seq<Turn>, t: nat, a: Action)
    requires IsRun(s, run) && Enabled(After(s, run), t, a)
    ensures IsRun(s, run + [Turn(t, a)]) && After(s, run + [Turn(t, a)]) == Step(After(s, run), t, a)
    decreases |run|
  {
    if |run| > 0 {
      RunSnoc(Step(s, run[0].thread, run[0].action), run[1..], t, a);
      assert (run + [Turn(t, a)])[0] == run[0] && (run + [Turn(t, a)])[1..] == run[1..] + [Turn(t, a)];
    } else {
      assert (run + [Turn(t, a)])[1..] == [];
    }
  }

  datatype Outcome = Value(client: nat) | Exception | Blocked

  /** The module of publish.py: its global, its lock, and where each thread is. */
  class PublishModule {
    var client: Option<nat>
    var lock: Option<nat>
    var threads: map<nat, At>
    var built: nat
    ghost var trace: seq<Turn>   // all turns so far

    ghost function View(): State
      reads this
    {
      State(client, lock, threads, built)
    }

    ghost predicate Valid()
      reads this
    {
      IsRun(START, trace) && After(START, trace) == View()
    }

    constructor ()
      ensures Valid() && View() == START && trace == []
    {
      client, lock, threads, built, trace := None, None, map[], 0, [];
    }

    ghost method Record(before: State, me: nat, a: Action)
      requires IsRun(START, trace) && After(START, trace) == before
      requires Enabled(before, me, a) && View() == Step(before, me, a)
      modifies this`trace
      ensures Valid() && trace == old(trace) + [Turn(me, a)]
    {
      RunSnoc(START, trace, me, a);
      trace := trace + [Turn(me, a)];
    }

    /** Another thread takes a turn, if it is possible. */
    method Other(me: nat, turn: Turn)
      requires Valid() && me in threads
      modifies this
      ensures Valid() && old(trace) <= trace && me in threads && threads[me] == old(threads)[me]
      ensures old(client).Some? || old(lock) == Some(me) ==> client == old(client)
      ensures old(lock) == Some(me) ==> lock == old(lock)
    {
      var s := State(client, lock, threads, built);
      if turn.thread != me && Enabled(s, turn.thread, turn.action) {
        RunInv(START, trace);
        StepInv(s, turn.thread, turn.action);
        var next := Step(s, turn.thread, turn.action);
        client, lock, threads, built := next.client, next.lock, next.threads, next.built;
        Record(s, turn.thread, turn.action);
      }
    }

    /** The other threads take those of the turns that are possible when they come up. */
    method Others(me: nat, turns: seq<Turn>)
      requires Valid() && me in threads
      modifies this
      ensures Valid() && old(trace) <= trace && me in threads && threads[me] == old(threads)[me]
      ensures old(client).Some? || old(lock) == Some(me) ==> client == old(client)
      ensures old(lock) == Some(me) ==> lock == old(lock)
    {
      for i := 0 to |turns|
        invariant Valid() && old(trace) <= trace && me in threads && threads[me] == old(threads)[me]
        invariant old(client).Some? || old(lock) == Some(me) ==> client == old(client)
        invariant old(lock) == Some(me) ==> lock == old(lock)
      {
        Other(me, turns[i]);
      }
    }

    // ---- _get_client, one access to a shared variable at a time ----

    method Enter(me: nat)
      requires Valid() && me !in threads
      modifies this`threads, this`trace
      ensures Valid() && old(trace) <= trace && me in threads && threads[me] == Checking
    {
      ghost var before := View();
      threads := threads[me := Checking];
      Record(before, me, Call);
    }

    method IsCached(me: nat) returns (cached: bool)
      requires Valid() && me in threads && threads[me] == Checking
      modifies this`threads, this`trace
      ensures Valid() && old(trace) <= trace && me in threads && cached == client.Some?
      ensures threads[me] == if cached then ReturningFast else Acquiring
    {
      cached := client.Some?;
      ghost var before := View();
      threads := threads[me := if cached then ReturningFast else Acquiring];
      Record(before, me, Check);
    }

    method ReadCached(me: nat) returns (value: nat)
      requires Valid() && me in threads && threads[me] == ReturningFast
      modifies this`threads, this`trace
      ensures Valid() && old(trace) <= trace && me in threads
      ensures client == Some(value) && threads[me] == Returned(client)
    {
      RunInv(START, trace);
      value := client.value;
      ghost var before := View();
      threads := threads[me := Returned(client)];
      Record(before, me, ReturnFast);
    }

    method TryLock(me: nat) returns (acquired: bool)
      requires Valid() && me in threads && threads[me] == Acquiring
      modifies this`lock, this`threads, this`trace
      ensures Valid() && old(trace) <= trace && me in threads
      ensures acquired == old(lock).None?
      ensures acquired ==> threads[me] == CheckingInside && lock == Some(me)
      ensures !acquired ==> threads[me] == Acquiring && lock.Some? && lock != Some(me)
    {
      RunInv(START, trace);
      if lock.Some? {
        return false;
      }
      ghost var before := View();
      lock, threads := Some(me), threads[me := CheckingInside];
      Record(before, me, Acquire);
      return true;
    }

    method IsMissing(me: nat) returns (missing: bool)
      requires Valid() && me in threads && threads[me] == CheckingInside
      modifies this`threads, this`trace
      ensures Valid() && old(trace) <= trace && me in threads && missing == client.None?
      ensures threads[me] == if missing then Building else ReadingInside
    {
      missing := client.None?;
      ghost var before := View();
      threads := threads[me := if missing then Building else ReadingInside];
      Record(before, me, CheckInside);
    }

    /** redis.from_url; an exception leaves the with statement, which releases the lock. */
    method FromUrl(me: nat, ok: bool)
      requires Valid() && me in threads && threads[me] == Building
      modifies this`lock, this`threads, this`built, this`trace
      ensures Valid() && old(trace) <= trace && me in threads
      ensures threads[me] == if ok then Assigning(old(built)) else Raised
      ensures !ok ==> lock == None
    {
      ghost var before := View();
      if ok {
        threads := threads[me := Assigning(built)];
        built := built + 1;
        Record(before, me, Build(true));
      } else {
        lock, threads := None, threads[me := Raised];
        Record(before, me, Build(false));
      }
    }

    method Store(me: nat)
      requires Valid() && me in threads && threads[me].Assigning?
      modifies this`client, this`threads, this`trace
      ensures Valid() && old(trace) <= trace && me in threads && threads[me] == ReadingInside
    {
      ghost var before := View();
      client := Some(threads[me].built);
      threads := threads[me := ReadingInside];
      Record(before, me, Assign);
    }

    method ReadLocked(me: nat) returns (value: nat)
      requires Valid() && me in threads && threads[me] == ReadingInside
      modifies this`threads, this`trace
      ensures Valid() && old(trace) <= trace && me in threads
      ensures client == Some(value) && threads[me] == Leaving(client)
    {
      RunInv(START, trace);
      value := client.value;
      ghost var before := View();
      threads := threads[me := Leaving(client)];
      Record(before, me, ReadInside);
    }

    method Release(me: nat)
      requires Valid() && me in threads && threads[me].Leaving?
      modifies this`lock, this`threads, this`trace
      ensures Valid() && old(trace) <= trace && me in threads && lock == None
      ensures threads[me] == Returned(old(threads)[me].value)
    {
      ghost var before := View();
      lock, threads := None, threads[me := Returned(threads[me].value)];
      Record(before, me, Leave);
    }

    method BuildAndStore(me: nat, others: nat -> seq<Turn>, ok: bool)
      requires Valid() && me in threads && threads[me] == Building
      modifies this
      ensures Valid() && old(trace) <= trace && me in threads
      ensures threads[me] == if ok then ReadingInside else Raised
      ensures !ok ==> lock == None
    {
      Others(me, others(3));
      FromUrl(me, ok);
      if ok {
        Others(me, others(4));
        Store(me);
      }
    }

    /** Its body, with the lock held. */
    method Locked(me: nat, others: nat -> seq<Turn>, ok: bool) returns (outcome: Outcome)
      requires Valid() && me in threads && threads[me] == CheckingInside
      modifies this
      ensures Valid() && old(trace) <= trace && me in threads && lock == None
      ensures match outcome
              case Value(v) => client == Some(v) && built == 1 && threads[me] == Returned(client)
              case Exception => !ok && threads[me] == Raised
              case Blocked => false
    {
      var missing := IsMissing(me);
      if missing {
        BuildAndStore(me, others, ok);
        if !ok {
          return Exception;
        }
      }
      Others(me, others(5));
      var value := ReadLocked(me);
      Others(me, others(6));
      Release(me);
      SingleConstruction(trace, me);
      return Value(value);
    }

    /** The with statement. */
    method GetLocked(me: nat, others: nat -> seq<Turn>, ok: bool) returns (outcome: Outcome)
      requires Valid() && me in threads && threads[me] == Acquiring
      modifies this
      ensures Valid() && old(trace) <= trace && me in threads
      ensures match outcome
              case Value(v) => client == Some(v) && built == 1 && threads[me] == Returned(client)
              case Exception => !ok && threads[me] == Raised && lock == None
              case Blocked => threads[me] == Acquiring && lock.Some? && lock != Some(me)
    {
      var acquired := TryLock(me);
      if !acquired {
        return Blocked;
      }
      Others(me, others(2));
      outcome := Locked(me, others, ok);
    }

    /** _get_client on thread `me`. Before its n-th access to a shared variable the other threads take
        the turns `others(n)`; `ok` tells whether redis.from_url returns, should it be called. Blocked
        means that another thread still holds the lock when the turns before the acquisition are over. */
    method GetClient(me: nat, others: nat -> seq<Turn>, ok: bool) returns (outcome: Outcome)
      requires Valid() && me !in threads
      modifies this
      ensures Valid() && old(trace) <= trace && me in threads
      ensures match outcome
              case Value(v) => client == Some(v) && built == 1 && threads[me] == Returned(client)
              case Exception => !ok && threads[me] == Raised && lock == None
              case Blocked => threads[me] == Acquiring && lock.Some? && lock != Some(me)
      ensures old(client).Some? ==> outcome == Value(old(client).value)
    {
      Enter(me);
      Others(me, others(0));
      var cached := IsCached(me);
      Others(me, others(1));
      if cached {
        var value := ReadCached(me);
        SingleConstruction(trace, me);
        return Value(value);
      }
      outcome := GetLocked(me, others, ok);
    }
  }
}
