/** Who can wait for whom: the hub and the read loop share the subscriber's mutex; the read loop, the
    read pumps, the connecting handlers and the goroutines of evictions send on bounded queues that
    only the hub drains. */
module Progress {
  import H = HubModel

  datatype Owner = Free | Hub | Reader | Other

  /** The hub waits in select, or has `calls` calls to the subscriber left in the current handler,
      or is inside one of them. */
  datatype HubAt = Selecting | Handling(calls: nat) | InCall(calls: nat)

  /** readLoop: waiting for a message, for the mutex, inside it, or pushing to `incoming`. */
  datatype ReaderAt = Receiving | Locking | Locked | Pushing

  /** A bounded queue: `sending` goroutines are about to send on it or blocked on it, `queued` of its
      places are taken. */
  datatype Queue = Queue(sending: nat, queued: nat)

  const EMPTY := Queue(0, 0)

  datatype Name = Register | Unregister | Subscribe | Unsubscribe

  function Capacity(q: Name): nat {
    match q
    case Register => H.REGISTER_CAPACITY
    case Unregister => H.UNREGISTER_CAPACITY
    case Subscribe => H.SUBSCRIBE_CAPACITY
    case Unsubscribe => H.UNSUBSCRIBE_CAPACITY
  }

  /** `waiting` goroutines are about to call Close or SetDeliver. */
  datatype State = State(
    mutex: Owner, hub: HubAt, reader: ReaderAt, incoming: nat,
    register: Queue, unregister: Queue, subscribe: Queue, unsubscribe: Queue, waiting: nat)

  const START := State(Free, Selecting, Receiving, 0, EMPTY, EMPTY, EMPTY, EMPTY, 0)

  function Get(s: State, q: Name): Queue {
    match q
    case Register => s.register
    case Unregister => s.unregister
    case Subscribe => s.subscribe
    case Unsubscribe => s.unsubscribe
  }

  function Set(s: State, q: Name, b: Queue): State {
    match q
    case Register => s.(register := b)
    case Unregister => s.(unregister := b)
    case Subscribe => s.(subscribe := b)
    case Unsubscribe => s.(unsubscribe := b)
  }

  datatype Step =
    // arrivals from outside
    | Send(to: Name)
    | MessageArrives
    | OtherArrives
    // what the gateway does about them
    | Enqueue(to: Name)
    | Take(from: Name, calls: nat, evicted: nat)
    | TakeMessage(evicted: nat)
    | EnterCall
    | LeaveCall
    | FinishHandler
    | ReaderLocks
    | ReaderUnlocks
    | ReaderPushes
    | OtherLocks
    | OtherUnlocks

  predicate Arrival(e: Step) {
    e.Send? || e.MessageArrives? || e.OtherArrives?
  }

  /** How many calls to the subscriber a handler makes, and how many clients it evicts: a registration
      joins two channels; a subscribe joins one or is answered by a frame that may not fit; an
      unregister leaves any number of channels. */
  predicate Handles(q: Name, calls: nat, evicted: nat) {
    match q
    case Register => calls <= 2 && evicted == 0
    case Unregister => evicted == 0
    case Subscribe => calls + evicted <= 1
    case Unsubscribe => calls <= 1 && evicted == 0
  }

  predicate Enabled(s: State, e: Step) {
    match e
    case Send(_) => true
    case MessageArrives => s.reader.Receiving?
    case OtherArrives => true
    case Enqueue(q) => Get(s, q).sending > 0 && Get(s, q).queued < Capacity(q)
    case Take(q, calls, evicted) => s.hub.Selecting? && Get(s, q).queued > 0 && Handles(q, calls, evicted)
    case TakeMessage(_) => s.hub.Selecting? && s.incoming > 0
    case EnterCall => s.hub.Handling? && s.hub.calls > 0 && s.mutex.Free?
    case LeaveCall => s.hub.InCall?
    case FinishHandler => s.hub.Handling? && s.hub.calls == 0
    case ReaderLocks => s.reader.Locking? && s.mutex.Free?
    case ReaderUnlocks => s.reader.Locked?
    case ReaderPushes => s.reader.Pushing? && s.incoming < H.INCOMING_CAPACITY
    case OtherLocks => s.waiting > 0 && s.mutex.Free?
    case OtherUnlocks => s.mutex.Other?
  }

  /** `n` more goroutines are about to send on `q`. */
  function Sending(s: State, q: Name, n: nat): State {
    Set(s, q, Get(s, q).(sending := Get(s, q).sending + n))
  }

  function Do(s: State, e: Step): State
    requires Enabled(s, e)
  {
    match e
    case Send(q) => Sending(s, q, 1)
    case MessageArrives => s.(reader := Locking)
    case OtherArrives => s.(waiting := s.waiting + 1)
    case Enqueue(q) => Set(s, q, Queue(Get(s, q).sending - 1, Get(s, q).queued + 1))
    case Take(q, calls, evicted) =>
      Sending(Set(s, q, Get(s, q).(queued := Get(s, q).queued - 1)), Unregister, evicted).(hub := Handling(calls))
    case TakeMessage(evicted) => Sending(s, Unregister, evicted).(incoming := s.incoming - 1, hub := Handling(0))
    case EnterCall => s.(mutex := Hub, hub := InCall(s.hub.calls - 1))
    case LeaveCall => s.(mutex := Free, hub := Handling(s.hub.calls))
    case FinishHandler => s.(hub := Selecting)
    case ReaderLocks => s.(mutex := Reader, reader := Locked)
    case ReaderUnlocks => s.(mutex := Free, reader := Pushing)
    case ReaderPushes => s.(reader := Receiving, incoming := s.incoming + 1)
    case OtherLocks => s.(mutex := Other, waiting := s.waiting - 1)
    case OtherUnlocks => s.(mutex := Free)
  }

  /** The mutex is held by whoever is inside it, and by nobody else. */
  predicate Disciplined(s: State) {
    && (s.mutex.Hub? <==> s.hub.InCall?)
    && (s.mutex.Reader? <==> s.reader.Locked?)
    && s.incoming <= H.INCOMING_CAPACITY && forall q :: Get(s, q).queued <= Capacity(q)
  }

  predicate IsRun(s: State, run: seq<Step>)
    decreases |run|
  {
    |run| == 0 || (Enabled(s, run[0]) && IsRun(Do(s, run[0]), run[1..]))
  }

  function After(s: State, run: seq<Step>): State
    requires IsRun(s, run)
    decreases |run|
  {
    if |run| == 0 then s else After(Do(s, run[0]), run[1..])
  }

  lemma {:induction false} RunAppend(s: State, past: seq<Step>, future: seq<Step>)
    requires IsRun(s, past) && IsRun(After(s, past), future)
    ensures IsRun(s, past + future) && After(s, past + future) == After(After(s, past), future)
    decreases |past|
  {
    if |past| == 0 {
      assert past + future == future;
    } else {
      RunAppend(Do(s, past[0]), past[1..], future);
      assert (past + future)[0] == past[0] && (past + future)[1..] == past[1..] + future;
    }
  }

  lemma DoDisciplined(s: State, e: Step)
    requires Disciplined(s) && Enabled(s, e)
    ensures Disciplined(Do(s, e))
  {
  }

  lemma {:induction false} RunDisciplined(s: State, run: seq<Step>)
    requires Disciplined(s) && IsRun(s, run)
    ensures Disciplined(After(s, run))
    decreases |run|
  {
    if |run| > 0 {
      DoDisciplined(s, run[0]);
      RunDisciplined(Do(s, run[0]), run[1..]);
    }
  }

  /** In every reachable state no queue holds more than its channel was made for, and a send blocks
      exactly when it is full. */
  lemma SendBlocksExactlyWhenFull(run: seq<Step>, q: Name)
    requires IsRun(START, run)
    ensures var s := After(START, run);
            var room := if q.Subscribe? || q.Unsubscribe? then 32 else 8;
            && Get(s, q).queued <= room && s.incoming <= 256
            && (Get(s, q).sending > 0 ==> (!Enabled(s, Enqueue(q)) <==> Get(s, q).queued == room))
            && (s.reader.Pushing? ==> (!Enabled(s, ReaderPushes) <==> s.incoming == 256))
  {
    RunDisciplined(START, run);
  }

  function Release(o: Owner): Step
    requires !o.Free?
  {
    match o
    case Hub => LeaveCall
    case Reader => ReaderUnlocks
    case Other => OtherUnlocks
  }

  /** In every reachable state whoever holds the mutex can give it back at once: the holder waits
      for no queue, so the hub never waits for a read loop stuck on a full `incoming`. */
  lemma HolderNeverWaits(run: seq<Step>)
    requires IsRun(START, run)
    ensures var s := After(START, run);
            && (!s.mutex.Free? ==> Enabled(s, Release(s.mutex)) && Do(s, Release(s.mutex)).mutex.Free?)
            && (s.hub.Handling? && s.mutex.Reader? ==> !s.reader.Pushing?)
  {
    RunDisciplined(START, run);
  }

  // ---- Without new arrivals everything drains, whatever the schedule ----

  function HubWork(h: HubAt): nat {
    match h
    case Selecting => 0
    case Handling(n) => 2 * n + 1
    case InCall(n) => 2 * n + 2
  }

  function ReaderWork(r: ReaderAt): nat {
    match r
    case Receiving => 0
    case Pushing => 1
    case Locked => 2
    case Locking => 3
  }

  function Size(q: Queue): nat {
    q.sending + q.queued
  }

  /** What is left to do, most significant first: a message or a subscribe can evict clients, and so
      make work for `unregister`, but not the other way round. */
  function Work(s: State): (nat, nat, nat, nat, nat, nat, nat) {
    (s.incoming + (if s.reader.Receiving? then 0 else 1),
     Size(s.subscribe),
     Size(s.register) + Size(s.unregister) + Size(s.unsubscribe),
     HubWork(s.hub),
     ReaderWork(s.reader),
     2 * s.waiting + (if s.mutex.Other? then 1 else 0),
     s.register.sending + s.unregister.sending + s.subscribe.sending + s.unsubscribe.sending)
  }

  predicate Less(a: (nat, nat, nat, nat, nat, nat, nat), b: (nat, nat, nat, nat, nat, nat, nat)) {
    a.0 < b.0 || (a.0 == b.0 && (
    a.1 < b.1 || (a.1 == b.1 && (
    a.2 < b.2 || (a.2 == b.2 && (
    a.3 < b.3 || (a.3 == b.3 && (
    a.4 < b.4 || (a.4 == b.4 && (
    a.5 < b.5 || (a.5 == b.5 &&
    a.6 < b.6)))))))))))
  }

  predicate Drained(s: State) {
    s == START
  }

  /** Every step that is not an arrival leaves less to do, in a well-founded order. */
  lemma WorkShrinks(s: State, e: Step)
    requires Disciplined(s) && Enabled(s, e) && !Arrival(e)
    ensures Less(Work(Do(s, e)), Work(s))
  {
  }

  /** The next step of one schedule that always has one. */
  function Next(s: State): Step
    requires !Drained(s)
  {
    if !s.mutex.Free? then Release(s.mutex)
    else if s.hub.Handling? then if s.hub.calls > 0 then EnterCall else FinishHandler
    else if s.incoming > 0 then TakeMessage(0)
    else if s.register.queued > 0 then Take(Register, 0, 0)
    else if s.unregister.queued > 0 then Take(Unregister, 0, 0)
    else if s.subscribe.queued > 0 then Take(Subscribe, 0, 0)
    else if s.unsubscribe.queued > 0 then Take(Unsubscribe, 0, 0)
    else if s.register.sending > 0 then Enqueue(Register)
    else if s.unregister.sending > 0 then Enqueue(Unregister)
    else if s.subscribe.sending > 0 then Enqueue(Subscribe)
    else if s.unsubscribe.sending > 0 then Enqueue(Unsubscribe)
    else if s.reader.Locking? then ReaderLocks
    else if s.reader.Pushing? then ReaderPushes
    else OtherLocks
  }

  /** No reachable state is stuck: as long as anything is left to do, some step that needs nothing
      from outside is possible, and then only if. */
  lemma StuckOnlyWhenDrained(s: State)
    requires Disciplined(s)
    ensures Drained(s) <==> forall e | !Arrival(e) :: !Enabled(s, e)
  {
    if !Drained(s) {
      assert !Arrival(Next(s)) && Enabled(s, Next(s));
    }
  }

  /** A scheduler: what happens at the n-th turn in state `s`, including how many clients a message
      evicts and how many calls a request needs. It may do anything possible but bring new arrivals. */
  ghost predicate Scheduler(f: (nat, State) -> Step) {
    forall n: nat, s | Disciplined(s) && !Drained(s) :: Enabled(s, f(n, s)) && !Arrival(f(n, s))
  }

  ghost predicate Scheduled(f: (nat, State) -> Step, n: nat, s: State, run: seq<Step>)
    requires IsRun(s, run)
    decreases |run|
  {
    |run| == 0 || (run[0] == f(n, s) && Scheduled(f, n + 1, Do(s, run[0]), run[1..]))
  }

  lemma ScheduledNext(f: (nat, State) -> Step, n: nat, s: State, rest: seq<Step>)
    requires Enabled(s, f(n, s)) && IsRun(Do(s, f(n, s)), rest) && Scheduled(f, n + 1, Do(s, f(n, s)), rest)
    ensures IsRun(s, [f(n, s)] + rest) && Scheduled(f, n, s, [f(n, s)] + rest)
    ensures After(s, [f(n, s)] + rest) == After(Do(s, f(n, s)), rest)
  {
    assert ([f(n, s)] + rest)[1..] == rest;
  }

  /** From every reachable state, under every scheduler, the gateway ends with the hub back in
      select, the read loop waiting for messages, the mutex free, all five queues empty and nobody
      blocked on any of them. */
  lemma {:induction false} EveryScheduleDrains(f: (nat, State) -> Step, n: nat, s: State) returns (run: seq<Step>)
    requires Scheduler(f) && Disciplined(s)
    ensures IsRun(s, run) && Scheduled(f, n, s, run) && Drained(After(s, run))
    decreases Work(s).0, Work(s).1, Work(s).2, Work(s).3, Work(s).4, Work(s).5, Work(s).6
  {
    if Drained(s) {
      run := [];
    } else {
      WorkShrinks(s, f(n, s));
      DoDisciplined(s, f(n, s));
      var rest := EveryScheduleDrains(f, n + 1, Do(s, f(n, s)));
      ScheduledNext(f, n, s, rest);
      run := [f(n, s)] + rest;
    }
  }

  /** There are such schedulers. */
  lemma SchedulersExist()
    ensures exists f: (nat, State) -> Step :: Scheduler(f)
  {
    var f := (n: nat, s: State) => if Drained(s) then OtherUnlocks else Next(s);
    assert Scheduler(f);
  }
}
