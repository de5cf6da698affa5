/**
 CMockSYEngine: a scripted stand-in for the serving side of the telephony server.
 A test queues the commands it expects and the completions to send; a received
 command has to match the first expected one, and releases the completions
 queued behind it.
*/
module MockSy {
  import opened Wrappers
  import opened Sequences

  const KErrCorrupt := -20
  const KErrInUse := -14

  datatype Kind = Message | Completion

  /** `id` numbers the events in the order they were queued; it stands for the identity of the object. */
  datatype Event = Event(id: nat, kind: Kind, cmdId: int, result: int, leave: bool, delay: int, data: seq<int>)

  /** History: the callbacks so far that have counted the queue down, and those that have not. */
  datatype Clock = Clock(counted: nat, held: nat)

  /** An entry of the delta queue; `at` is history: the clock when it was put there. */
  datatype Entry = Entry(event: Event, delta: int, at: Clock)

  /** History: a completion delivered at clock `time`. */
  datatype Delivery = Delivery(event: Event, at: Clock, time: Clock)

  datatype Notice = HandlingTerminated | FailureNotice

  datatype Outcome = Returned(code: int) | Left(code: int)

  datatype State = State(
    waiting: seq<Event>,       // iWaitingEventQue
    pending: seq<Entry>,       // iPendingEventQue
    failure: bool,             // iFailure
    paused: bool,              // iPaused
    timer: bool,               // iTimer is active
    // history
    clock: Clock,              // callbacks that were not paused
    log: seq<Event>,           // every event ever queued
    start: nat,                // length of the log at the last reset
    matched: seq<Event>,       // expected commands matched since the last reset
    delivered: seq<Delivery>,  // completions delivered since the last reset
    done: seq<Event>,          // matched or delivered before the last reset
    discarded: seq<Event>,     // thrown away by a reset
    notices: seq<Notice>)

  function Initial(): State {
    State([], [], false, false, false, Clock(0, 0), [], 0, [], [], [], [], [])
  }

  // ---------- the delta queue ----------

  /** Insert behind every entry that is due no later, each delta being relative to the entry before. */
  function Insert(q: seq<Entry>, e: Event, delay: int, at: Clock): seq<Entry> {
    if q == [] then [Entry(e, delay, at)]
    else if delay >= q[0].delta then [q[0]] + Insert(q[1..], e, delay - q[0].delta, at)
    else [Entry(e, delay, at), q[0].(delta := q[0].delta - delay)] + q[1..]
  }

  function InsertAll(q: seq<Entry>, es: seq<Event>, at: Clock): seq<Entry>
    decreases |es|
  {
    if es == [] then q else InsertAll(Insert(q, es[0], es[0].delay, at), es[1..], at)
  }

  function CountDown(q: seq<Entry>): (r: seq<Entry>)
    ensures |r| == |q|
  {
    if q != [] && q[0].delta > 0 then [q[0].(delta := q[0].delta - 1)] + q[1..] else q
  }

  /** How many entries are due at the front. */
  function Due(q: seq<Entry>): (n: nat)
    ensures n <= |q|
    ensures forall i :: 0 <= i < n ==> q[i].delta <= 0
    ensures n < |q| ==> q[n].delta > 0
  {
    if q == [] || q[0].delta > 0 then 0 else 1 + Due(q[1..])
  }

  /** When an entry of the queue falls due, counted from now. */
  function DueIn(q: seq<Entry>, k: nat): int
    requires k < |q|
  {
    q[0].delta + if k == 0 then 0 else DueIn(q[1..], k - 1)
  }

  function Events(q: seq<Entry>): seq<Event> {
    if q == [] then [] else [q[0].event] + Events(q[1..])
  }

  function DeliveredEvents(ds: seq<Delivery>): seq<Event> {
    if ds == [] then [] else [ds[0].event] + DeliveredEvents(ds[1..])
  }

  // ---------- operations ----------

  /** DoQueueEventL */
  function Queue(s: State, kind: Kind, cmdId: int, result: int, leave: bool, delay: int, data: seq<int>): State {
    var e := Event(|s.log|, kind, cmdId, result, leave, delay, data);
    var t := s.(log := s.log + [e]);
    if kind == Completion && s.waiting == [] then
      t.(pending := Insert(s.pending, e, delay, s.clock), timer := true)
    else
      t.(waiting := s.waiting + [e])
  }

  /** The completions at the front of the waiting queue. */
  function Leading(waiting: seq<Event>): (n: nat)
    ensures n <= |waiting|
    ensures forall i :: 0 <= i < n ==> waiting[i].kind == Completion
    ensures n < |waiting| ==> waiting[n].kind == Message
  {
    if waiting == [] || waiting[0].kind == Message then 0 else 1 + Leading(waiting[1..])
  }

  function Discard(s: State): State {
    s.(paused := false, waiting := [], pending := [],
       start := |s.log|,
       done := s.done + s.matched + DeliveredEvents(s.delivered),
       discarded := s.discarded + s.waiting + Events(s.pending),
       matched := [], delivered := [])
  }

  /** Failure() */
  function Fail(s: State): State {
    Discard(s.(failure := true, notices := s.notices + [FailureNotice]))
  }

  predicate Matches(e: Event, cmdId: int, accepts: seq<int> -> bool, checkData: bool) {
    cmdId == e.cmdId && (checkData ==> accepts(e.data))
  }

  /** The state after the first expected command has been matched. */
  function Matched(s: State): State
    requires s.waiting != []
  {
    var rest := s.waiting[1..];
    var n := Leading(rest);
    var pending := InsertAll(s.pending, rest[..n], s.clock);
    s.(waiting := rest[n..], pending := pending, matched := s.matched + [s.waiting[0]],
       timer := s.timer || pending != [],
       notices := s.notices + if pending == [] && rest[n..] == [] then [HandlingTerminated] else [])
  }

  /** ExecuteCommandL; `ignore` is what CanIgnoreUnexpectedIpc says of the command. */
  function Execute(s: State, cmdId: int, accepts: seq<int> -> bool, checkData: bool, ignore: bool): (State, Outcome) {
    if s.waiting != [] && Matches(s.waiting[0], cmdId, accepts, checkData) then
      (Matched(s), if s.waiting[0].leave then Left(s.waiting[0].result) else Returned(s.waiting[0].result))
    else if ignore then (s, Returned(KErrNone))
    else (Fail(s), Returned(KErrCorrupt))
  }

  function Deliveries(q: seq<Entry>, time: Clock): (r: seq<Delivery>)
    ensures |r| == |q|
    ensures forall i :: 0 <= i < |r| ==> r[i] == Delivery(q[i].event, q[i].at, time)
  {
    seq(|q|, i requires 0 <= i < |q| => Delivery(q[i].event, q[i].at, time))
  }

  /** A callback counts the queue down unless its first entry is due already. */
  function Ticked(clock: Clock, q: seq<Entry>): Clock {
    if q != [] && q[0].delta <= 0 then clock.(held := clock.held + 1) else clock.(counted := clock.counted + 1)
  }

  /** DoTimerCallbackL */
  function Tick(s: State): State {
    if s.paused then s
    else
      var counted := CountDown(s.pending);
      var n := Due(counted);
      s.(pending := counted[n..],
         clock := Ticked(s.clock, s.pending),
         delivered := s.delivered + Deliveries(counted[..n], Ticked(s.clock, s.pending)),
         timer := s.timer && counted[n..] != [],
         notices := s.notices + if counted[n..] == [] && s.waiting == [] then [HandlingTerminated] else [])
  }

  /** PauseCompletion and ResumeCompletion */
  function Pause(s: State, paused: bool): (State, int) {
    (s.(paused := paused), if s.paused == paused then KErrInUse else KErrNone)
  }

  /** SessionClosed */
  function Close(s: State): State {
    Discard(s.(failure := false))
  }

  // ---------- the invariant ----------

  function Messages(es: seq<Event>): seq<Event> {
    if es == [] then [] else (if es[0].kind == Message then [es[0]] else []) + Messages(es[1..])
  }

  function Completions(es: seq<Event>): seq<Event> {
    if es == [] then [] else (if es[0].kind == Completion then [es[0]] else []) + Completions(es[1..])
  }

  /** The events of a list, with their number. */
  function Bag(es: seq<Event>): (r: multiset<Event>)
  {
    if es == [] then multiset{} else multiset{es[0]} + Bag(es[1..])
  }

  /** The events queued since the last reset that are no longer waiting. */
  function Taken(s: State): seq<Event>
    requires s.start + |s.waiting| <= |s.log|
  {
    s.log[s.start..|s.log| - |s.waiting|]
  }

  /** Events are numbered, and the waiting queue is the untaken end of what was queued. */
  ghost predicate Ordered(s: State) {
    && (forall i :: 0 <= i < |s.log| ==> s.log[i].id == i)
    && s.start + |s.waiting| <= |s.log|
    && s.waiting == s.log[|s.log| - |s.waiting|..]
    && (s.waiting == [] || s.waiting[0].kind == Message)
  }

  /** The taken events have been matched, in order, or released. */
  ghost predicate Accounted(s: State)
    requires s.start + |s.waiting| <= |s.log|
  {
    && s.matched == Messages(Taken(s))
    && Bag(Events(s.pending)) + Bag(DeliveredEvents(s.delivered)) == Bag(Completions(Taken(s)))
    && Bag(s.done) + Bag(s.discarded) == Bag(s.log[..s.start])
  }

  ghost predicate Ok(s: State) {
    && Ordered(s) && Accounted(s)
    && (s.pending != [] ==> s.timer)
  }

  lemma InitialOk()
    ensures Ok(Initial())
  {
  }

  // ---------- lists and their bags ----------

  lemma {:induction false} BagConcat(a: seq<Event>, b: seq<Event>)
    ensures Bag(a + b) == Bag(a) + Bag(b)
  {
    if a == [] {
      assert a + b == b;
    } else {
      assert (a + b)[1..] == a[1..] + b;
      BagConcat(a[1..], b);
    }
  }

  lemma {:induction false} BagHas(es: seq<Event>, e: Event)
    ensures e in Bag(es) <==> e in es
  {
    if es != [] {
      BagHas(es[1..], e);
    }
  }

  lemma {:induction false} KindsConcat(a: seq<Event>, b: seq<Event>)
    ensures Messages(a + b) == Messages(a) + Messages(b)
    ensures Completions(a + b) == Completions(a) + Completions(b)
  {
    hide Messages, Completions;
    if a == [] {
      assert a + b == b;
      NoKinds();
    } else {
      assert (a + b)[1..] == a[1..] + b;
      FirstKind(a + b);
      FirstKind(a);
      KindsConcat(a[1..], b);
    }
  }

  lemma {:induction false} EventsConcat(a: seq<Entry>, b: seq<Entry>)
    ensures Events(a + b) == Events(a) + Events(b)
  {
    if a == [] {
      assert a + b == b;
    } else {
      assert (a + b)[1..] == a[1..] + b;
      EventsConcat(a[1..], b);
    }
  }

  lemma {:induction false} DeliveredConcat(a: seq<Delivery>, b: seq<Delivery>)
    ensures DeliveredEvents(a + b) == DeliveredEvents(a) + DeliveredEvents(b)
  {
    if a == [] {
      assert a + b == b;
    } else {
      assert (a + b)[1..] == a[1..] + b;
      DeliveredConcat(a[1..], b);
    }
  }

  lemma {:induction false} DeliveriesHold(q: seq<Entry>, time: Clock)
    ensures DeliveredEvents(Deliveries(q, time)) == Events(q)
  {
    if q != [] {
      DeliveriesHold(q[1..], time);
      assert Deliveries(q, time)[1..] == Deliveries(q[1..], time);
    }
  }

  lemma {:induction false} InsertHolds(q: seq<Entry>, e: Event, delay: int, at: Clock)
    ensures Bag(Events(Insert(q, e, delay, at))) == Bag(Events(q)) + multiset{e}
    decreases |q|
  {
    var r := Insert(q, e, delay, at);
    if q == [] {
      assert r[1..] == [];
    } else if delay >= q[0].delta {
      InsertHolds(q[1..], e, delay - q[0].delta, at);
      assert r[1..] == Insert(q[1..], e, delay - q[0].delta, at);
    } else {
      assert r[1..][1..] == q[1..];
    }
  }

  lemma {:induction false} InsertAllHolds(q: seq<Entry>, es: seq<Event>, at: Clock)
    ensures Bag(Events(InsertAll(q, es, at))) == Bag(Events(q)) + Bag(es)
    decreases |es|
  {
    if es != [] {
      hide Insert;
      InsertHolds(q, es[0], es[0].delay, at);
      InsertAllHolds(Insert(q, es[0], es[0].delay, at), es[1..], at);
    }
  }

  lemma {:induction false} OnlyCompletions(es: seq<Event>)
    requires forall i :: 0 <= i < |es| ==> es[i].kind == Completion
    ensures Messages(es) == [] && Completions(es) == es
  {
    if es != [] {
      OnlyCompletions(es[1..]);
    }
  }

  lemma {:induction false} MessagesAndCompletions(es: seq<Event>)
    ensures Bag(Messages(es)) + Bag(Completions(es)) == Bag(es)
  {
    if es != [] {
      var e, rest := es[0], es[1..];
      MessagesAndCompletions(rest);
      FirstKind(es);
      BagFirst(e, Messages(rest));
      BagFirst(e, Completions(rest));
      BagFirst(e, rest);
      hide Messages, Completions, Bag;
      assert es == [e] + rest;
      AddTo(e, Bag(Messages(rest)), Bag(Completions(rest)), Bag(rest));
    }
  }

  lemma FirstKind(es: seq<Event>)
    requires es != []
    ensures es[0].kind == Message ==>
            Messages(es) == [es[0]] + Messages(es[1..]) && Completions(es) == Completions(es[1..])
    ensures es[0].kind == Completion ==>
            Messages(es) == Messages(es[1..]) && Completions(es) == [es[0]] + Completions(es[1..])
  {
  }

  lemma BagFirst(e: Event, es: seq<Event>)
    ensures Bag([e] + es) == multiset{e} + Bag(es)
  {
    assert ([e] + es)[1..] == es;
  }

  lemma AddTo(e: Event, a: multiset<Event>, b: multiset<Event>, c: multiset<Event>)
    requires a + b == c
    ensures (multiset{e} + a) + b == multiset{e} + c && a + (multiset{e} + b) == multiset{e} + c
  {
  }

  lemma {:induction false} KindsHave(es: seq<Event>, e: Event)
    ensures e in Messages(es) <==> e in es && e.kind == Message
    ensures e in Completions(es) <==> e in es && e.kind == Completion
  {
    if es != [] {
      KindsHave(es[1..], e);
    }
  }

  // ---------- every operation keeps the invariant ----------

  /** The taken events grow by one expected command, or none, and the completions released with it. */
  lemma Release(s: State, t: State, first: seq<Event>, released: seq<Event>)
    requires Ordered(s) && Accounted(s) && Ordered(t)
    requires t.start == s.start && t.log[..t.start] == s.log[..s.start] && t.done == s.done
            && t.discarded == s.discarded
    requires Taken(t) == (Taken(s) + first) + released
    requires first == Messages(first) && Completions(first) == []
    requires forall i :: 0 <= i < |released| ==> released[i].kind == Completion
    requires t.matched == s.matched + first && t.delivered == s.delivered
    requires Bag(Events(t.pending)) == Bag(Events(s.pending)) + Bag(released)
    ensures Accounted(t)
  {
    KindsConcat(Taken(s) + first, released);
    KindsConcat(Taken(s), first);
    OnlyCompletions(released);
    BagConcat(Completions(Taken(s)), released);
    hide Ordered, Bag, Messages, Completions, Events, DeliveredEvents, Taken;
    assert Completions(Taken(s)) + [] == Completions(Taken(s));
    assert t.matched + [] == t.matched;
  }

  lemma QueueOk(s: State, kind: Kind, cmdId: int, result: int, leave: bool, delay: int, data: seq<int>)
    requires Ok(s)
    ensures Ok(Queue(s, kind, cmdId, result, leave, delay, data))
  {
    hide Bag, Messages, Completions, Events, DeliveredEvents, Insert;
    var t := Queue(s, kind, cmdId, result, leave, delay, data);
    var e := t.log[|s.log|];
    assert t.log[..t.start] == s.log[..s.start];
    QueueOrdered(s, t, e);
    hide Ordered;
    NoKinds();
    if kind == Completion && s.waiting == [] {
      InsertHolds(s.pending, e, delay, s.clock);
      OneBag(e);
      assert Taken(s) + [] == Taken(s);
      assert s.matched + [] == s.matched;
      Release(s, t, [], [e]);
    }
  }

  lemma QueueOrdered(s: State, t: State, e: Event)
    requires Ordered(s) && e.id == |s.log| && t.log == s.log + [e] && t.start == s.start
    requires if e.kind == Completion && s.waiting == [] then t.waiting == [] else t.waiting == s.waiting + [e]
    ensures Ordered(t)
    ensures Taken(t) == if e.kind == Completion && s.waiting == [] then Taken(s) + [e] else Taken(s)
  {
  }

  lemma NoKinds()
    ensures Messages([]) == [] && Completions([]) == []
  {
  }

  lemma OneBag(e: Event)
    ensures Bag([e]) == multiset{e}
    ensures e.kind == Message ==> Messages([e]) == [e] && Completions([e]) == []
  {
    assert [e][1..] == [];
  }

  lemma MatchedOk(s: State)
    requires Ok(s) && s.waiting != []
    ensures Ok(Matched(s))
  {
    hide Bag, Messages, Completions, Events, DeliveredEvents, InsertAll;
    var t := Matched(s);
    var rest := s.waiting[1..];
    var n := Leading(rest);
    MatchedTakes(s);
    OneBag(s.waiting[0]);
    InsertAllHolds(s.pending, rest[..n], s.clock);
    Release(s, t, [s.waiting[0]], rest[..n]);
  }

  /** The untaken end of the log behind `k + 1 + n` events. */
  lemma Cut(log: seq<Event>, start: nat, k: nat, n: nat)
    requires start <= k < |log| && k + 1 + n <= |log|
    ensures log[k..][1..][n..] == log[k + 1 + n..]
    ensures log[start..k + 1 + n] == (log[start..k] + [log[k]]) + log[k..][1..][..n]
  {
  }

  lemma MatchedTakes(s: State)
    requires Ordered(s) && s.waiting != []
    ensures var n := Leading(s.waiting[1..]);
            && Ordered(Matched(s))
            && Taken(Matched(s)) == (Taken(s) + [s.waiting[0]]) + s.waiting[1..][..n]
  {
    hide InsertAll, Leading;
    var k, n := |s.log| - |s.waiting|, Leading(s.waiting[1..]);
    Cut(s.log, s.start, k, n);
    assert s.waiting[0] == s.log[k];
  }

  lemma DiscardOk(s: State)
    requires Ok(s)
    ensures Ok(Discard(s))
  {
    hide Bag, Messages, Completions, Events, DeliveredEvents;
    var t := Discard(s);
    assert Taken(t) == [];
    assert t.log[..t.start] == s.log[..s.start] + Taken(s) + s.waiting;
    MessagesAndCompletions(Taken(s));
    BagConcat(s.log[..s.start] + Taken(s), s.waiting);
    BagConcat(s.log[..s.start], Taken(s));
    BagConcat(s.done + s.matched, DeliveredEvents(s.delivered));
    BagConcat(s.done, s.matched);
    BagConcat(s.discarded + s.waiting, Events(s.pending));
    BagConcat(s.discarded, s.waiting);
    Empty();
  }

  lemma Empty()
    ensures Messages([]) == [] && Completions([]) == [] && Events([]) == [] && DeliveredEvents([]) == []
            && Bag([]) == multiset{}
  {
  }

  /** A callback moves what is due from the pending completions to the delivered ones. */
  lemma TickBag(pending: seq<Entry>, delivered: seq<Delivery>, now: Clock)
    ensures var counted := CountDown(pending);
            var n := Due(counted);
            Bag(Events(counted[n..])) + Bag(DeliveredEvents(delivered + Deliveries(counted[..n], now)))
            == Bag(Events(pending)) + Bag(DeliveredEvents(delivered))
    ensures pending == [] ==> CountDown(pending)[Due(CountDown(pending))..] == []
  {
    hide Bag, Events, DeliveredEvents, Deliveries, CountDown, Due;
    var counted := CountDown(pending);
    var n := Due(counted);
    assert counted == counted[..n] + counted[n..];
    CountDownHolds(pending);
    EventsConcat(counted[..n], counted[n..]);
    BagConcat(Events(counted[..n]), Events(counted[n..]));
    DeliveriesHold(counted[..n], now);
    DeliveredConcat(delivered, Deliveries(counted[..n], now));
    BagConcat(DeliveredEvents(delivered), Events(counted[..n]));
  }

  /** The invariant, when only what is pending and delivered has changed. */
  lemma OkMoved(s: State, t: State)
    requires Ok(s) && t == s.(pending := t.pending, delivered := t.delivered, clock := t.clock, timer := t.timer,
            notices := t.notices)
    requires Bag(Events(t.pending)) + Bag(DeliveredEvents(t.delivered))
             == Bag(Events(s.pending)) + Bag(DeliveredEvents(s.delivered))
    requires t.pending != [] ==> t.timer
    ensures Ok(t)
  {
    hide Bag, Messages, Completions, Events, DeliveredEvents;
    assert Taken(t) == Taken(s);
  }

  lemma OkAfterTick(s: State, rest: seq<Entry>, gone: seq<Delivery>, now: Clock)
    requires Ok(s) && (s.pending == [] ==> rest == [])
    requires Bag(Events(rest)) + Bag(DeliveredEvents(s.delivered + gone))
             == Bag(Events(s.pending)) + Bag(DeliveredEvents(s.delivered))
    ensures Ok(s.(pending := rest, clock := now, delivered := s.delivered + gone, timer := s.timer && rest != [],
                  notices := s.notices + if rest == [] && s.waiting == [] then [HandlingTerminated] else []))
  {
    hide Bag, Ordered, Accounted, Events, DeliveredEvents;
    OkMoved(s, s.(pending := rest, clock := now, delivered := s.delivered + gone, timer := s.timer && rest != [],
                  notices := s.notices + if rest == [] && s.waiting == [] then [HandlingTerminated] else []));
  }

  lemma TickOk(s: State)
    requires Ok(s)
    ensures Ok(Tick(s))
  {
    hide Ok, Bag, Events, DeliveredEvents, Deliveries, CountDown, Due, Ticked;
    if !s.paused {
      var counted, now := CountDown(s.pending), Ticked(s.clock, s.pending);
      TickBag(s.pending, s.delivered, now);
      OkAfterTick(s, counted[Due(counted)..], Deliveries(counted[..Due(counted)], now), now);
    }
  }

  lemma CountDownHolds(q: seq<Entry>)
    ensures Events(CountDown(q)) == Events(q)
  {
    if q != [] {
      assert CountDown(q)[1..] == q[1..];
    }
  }

  // ---------- runs ----------

  datatype Step =
    | DoQueue(kind: Kind, cmdId: int, result: int, leave: bool, delay: int, data: seq<int>)
    | DoExecute(cmdId: int, accepts: seq<int> -> bool, checkData: bool, ignore: bool)
    | DoTick
    | DoPause(paused: bool)
    | DoClose

  function Take(s: State, step: Step): State {
    match step
    case DoQueue(kind, cmdId, result, leave, delay, data) => Queue(s, kind, cmdId, result, leave, delay, data)
    case DoExecute(cmdId, accepts, checkData, ignore) => Execute(s, cmdId, accepts, checkData, ignore).0
    case DoTick => Tick(s)
    case DoPause(paused) => Pause(s, paused).0
    case DoClose => Close(s)
  }

  function After(s: State, steps: seq<Step>): State {
    if steps == [] then s else Take(After(s, steps[..|steps| - 1]), steps[|steps| - 1])
  }

  lemma TakeOk(s: State, step: Step)
    requires Ok(s)
    ensures Ok(Take(s, step))
  {
    hide Ok, Matched, Discard, Tick, Queue;
    match step
    case DoQueue(kind, cmdId, result, leave, delay, data) => QueueOk(s, kind, cmdId, result, leave, delay, data);
    case DoExecute(cmdId, accepts, checkData, ignore) =>
      if s.waiting != [] {
        MatchedOk(s);
      }
      FlagsOk(s, s.(failure := true, notices := s.notices + [FailureNotice]));
      DiscardOk(s.(failure := true, notices := s.notices + [FailureNotice]));
    case DoTick => TickOk(s);
    case DoPause(paused) => FlagsOk(s, s.(paused := paused));
    case DoClose =>
      FlagsOk(s, s.(failure := false));
      DiscardOk(s.(failure := false));
  }

  lemma FlagsOk(s: State, t: State)
    requires Ok(s) && t == s.(failure := t.failure, paused := t.paused, notices := t.notices)
    ensures Ok(t)
  {
  }

  lemma {:induction false} AfterOk(steps: seq<Step>)
    ensures Ok(After(Initial(), steps))
  {
    hide Ok, Take;
    InitialOk();
    if steps != [] {
      AfterOk(steps[..|steps| - 1]);
      TakeOk(After(Initial(), steps[..|steps| - 1]), steps[|steps| - 1]);
    }
  }

  /**
   Over every run: the waiting queue is empty or headed by an expected command,
   the commands accepted since the last reset are the first ones expected, in
   order, and every event ever queued is waiting, pending, matched, delivered or
   discarded, exactly one of these and exactly once.
  */
  lemma EveryEventAccountedFor(steps: seq<Step>)
    ensures var s := After(Initial(), steps);
            && (s.waiting == [] || s.waiting[0].kind == Message)
            && s.start <= |s.log|
            && s.matched <= Messages(s.log[s.start..])
            && Bag(s.log) == Bag(s.waiting) + Bag(Events(s.pending)) + Bag(s.matched)
                             + Bag(DeliveredEvents(s.delivered)) + Bag(s.done) + Bag(s.discarded)
            && (forall i, j :: 0 <= i < j < |s.log| ==> s.log[i] != s.log[j])
  {
    hide After, Bag, Messages, Completions, Events, DeliveredEvents;
    AfterOk(steps);
    var s := After(Initial(), steps);
    var k := |s.log| - |s.waiting|;
    assert s.log == (s.log[..s.start] + Taken(s)) + s.waiting;
    BagConcat(s.log[..s.start] + Taken(s), s.waiting);
    BagConcat(s.log[..s.start], Taken(s));
    MessagesAndCompletions(Taken(s));
    assert s.log[s.start..] == Taken(s) + s.waiting;
    KindsConcat(Taken(s), s.waiting);
  }

  /**
   Causal order, over every run: a completion queued since the last reset has been
   released, that is, is pending or delivered, exactly when every expected command
   queued ahead of it since then has been matched.
  */
  lemma CausalOrder(steps: seq<Step>, i: nat)
    requires var s := After(Initial(), steps); s.start <= i < |s.log| && s.log[i].kind == Completion
    ensures var s := After(Initial(), steps);
            s.log[i] in Events(s.pending) || s.log[i] in DeliveredEvents(s.delivered)
            <==> forall j :: s.start <= j < i && s.log[j].kind == Message ==> s.log[j] in s.matched
  {
    hide After, Bag, Messages, Completions, Events, DeliveredEvents;
    AfterOk(steps);
    var s := After(Initial(), steps);
    var k := |s.log| - |s.waiting|;
    ReleasedIffTaken(s, s.log[i]);
    TakenAre(s, i);
    forall j | s.start <= j < i && s.log[j].kind == Message ensures s.log[j] in s.matched <==> j < k {
      KindsHave(Taken(s), s.log[j]);
      TakenAre(s, j);
    }
    if i >= k {
      assert s.waiting[0] == s.log[k];
    }
  }

  lemma ReleasedIffTaken(s: State, e: Event)
    requires Ordered(s) && Accounted(s) && e.kind == Completion
    ensures e in Events(s.pending) || e in DeliveredEvents(s.delivered) <==> e in Taken(s)
  {
    KindsHave(Taken(s), e);
    BagHas(Completions(Taken(s)), e);
    BagHas(Events(s.pending), e);
    BagHas(DeliveredEvents(s.delivered), e);
  }

  lemma TakenAre(s: State, i: nat)
    requires Ordered(s) && s.start <= i < |s.log|
    ensures s.log[i] in Taken(s) <==> i < |s.log| - |s.waiting|
  {
    if i < |s.log| - |s.waiting| {
      assert Taken(s)[i - s.start] == s.log[i];
    }
  }

  // ---------- when completions are delivered ----------

  /** When the entry is due, by the callbacks that count. */
  function DueAt(x: Entry): int {
    x.at.counted + x.event.delay
  }

  /** All callbacks. */
  function Callbacks(clock: Clock): nat {
    clock.counted + clock.held
  }

  /** The deltas say when each entry is due, counted from `now`, and ties keep the order of queueing. */
  ghost predicate Timed(q: seq<Entry>, now: int) {
    q != [] ==>
      && q[0].delta >= 0
      && DueAt(q[0]) == now + q[0].delta
      && (forall j :: 1 <= j < |q| && DueAt(q[j]) == DueAt(q[0]) ==> q[0].event.id < q[j].event.id)
      && Timed(q[1..], now + q[0].delta)
  }

  lemma {:induction false} TimedAll(q: seq<Entry>, now: int)
    requires Timed(q, now)
    ensures forall i :: 0 <= i < |q| ==> DueAt(q[i]) >= now
  {
    if q != [] {
      TimedAll(q[1..], now + q[0].delta);
      forall i | 1 <= i < |q| ensures DueAt(q[i]) >= now {
        assert q[1..][i - 1] == q[i];
      }
    }
  }

  /** The entries of `r` are those of `q` and one of event `e`, up to their deltas. */
  ghost predicate Adds(q: seq<Entry>, r: seq<Entry>, e: Event, at: Clock) {
    forall j :: 0 <= j < |r| ==>
      (r[j].event == e && r[j].at == at) || exists i :: 0 <= i < |q| && r[j].event == q[i].event && r[j].at == q[i].at
  }

  lemma {:induction false} InsertAdds(q: seq<Entry>, e: Event, delay: int, at: Clock)
    ensures Adds(q, Insert(q, e, delay, at), e, at)
    ensures |Insert(q, e, delay, at)| == |q| + 1
    decreases |q|
  {
    var r := Insert(q, e, delay, at);
    if q != [] && delay >= q[0].delta {
      InsertAdds(q[1..], e, delay - q[0].delta, at);
      forall j | 1 <= j < |r| && !(r[j].event == e && r[j].at == at)
        ensures exists i :: 0 <= i < |q| && r[j].event == q[i].event && r[j].at == q[i].at
      {
        var i :| 0 <= i < |q[1..]| && r[1..][j - 1].event == q[1..][i].event && r[1..][j - 1].at == q[1..][i].at;
        assert q[i + 1] == q[1..][i];
      }
    } else if q != [] {
      forall j | 1 <= j < |r| ensures exists i :: 0 <= i < |q| && r[j].event == q[i].event && r[j].at == q[i].at {
        assert r[j].event == q[j - 1].event && r[j].at == q[j - 1].at;
      }
    }
  }

  lemma {:induction false} InsertTimed(q: seq<Entry>, e: Event, delay: int, at: Clock, now: int)
    requires Timed(q, now) && delay >= 0 && at.counted + e.delay == now + delay
    requires forall i :: 0 <= i < |q| ==> q[i].event.id < e.id
    ensures Timed(Insert(q, e, delay, at), now)
    decreases |q|
  {
    var r := Insert(q, e, delay, at);
    if q == [] {
      assert r[1..] == [];
    } else if delay >= q[0].delta {
      var due := now + q[0].delta;
      InsertTimed(q[1..], e, delay - q[0].delta, at, due);
      InsertAdds(q[1..], e, delay - q[0].delta, at);
      var rest := Insert(q[1..], e, delay - q[0].delta, at);
      assert r[1..] == rest;
      forall j | 1 <= j < |r| && DueAt(r[j]) == due ensures q[0].event.id < r[j].event.id {
        assert r[j] == rest[j - 1];
        if !(rest[j - 1].event == e && rest[j - 1].at == at) {
          var i :| 0 <= i < |q[1..]| && rest[j - 1].event == q[1..][i].event && rest[j - 1].at == q[1..][i].at;
          assert q[1..][i] == q[i + 1];
        }
      }
    } else {
      InsertFirstTimed(q, e, delay, at, now);
    }
  }

  lemma InsertFirstTimed(q: seq<Entry>, e: Event, delay: int, at: Clock, now: int)
    requires Timed(q, now) && q != [] && 0 <= delay < q[0].delta && at.counted + e.delay == now + delay
    ensures Timed(Insert(q, e, delay, at), now)
  {
    var r := Insert(q, e, delay, at);
    var due := now + q[0].delta;
    TimedAll(q[1..], due);
    assert r[1..][1..] == q[1..];
    forall j | 1 <= j < |r| ensures DueAt(r[j]) >= due {
      if j > 1 {
        assert r[j] == q[1..][j - 2];
      }
    }
    forall j | 1 <= j < |r[1..]| && DueAt(r[1..][j]) == due ensures r[1..][0].event.id < r[1..][j].event.id {
      assert r[1..][j] == q[j];
    }
  }

  /**
   Ready to take events numbered from `next` on: what is due already has come since the
   last callback.
  */
  ghost predicate Punctual(q: seq<Entry>, clock: Clock, next: nat) {
    && Timed(q, clock.counted)
    && (forall i :: 0 <= i < |q| ==>
          q[i].event.id < next && q[i].at.counted <= clock.counted && q[i].event.delay >= 0)
    && (forall i :: 0 <= i < |q| && DueAt(q[i]) == clock.counted ==> q[i].at == clock)
  }

  lemma InsertPunctual(q: seq<Entry>, e: Event, clock: Clock, next: nat)
    requires Punctual(q, clock, next) && e.delay >= 0 && next <= e.id
    ensures Punctual(Insert(q, e, e.delay, clock), clock, e.id + 1)
  {
    InsertTimed(q, e, e.delay, clock, clock.counted);
    InsertAdds(q, e, e.delay, clock);
    hide Timed, Insert;
  }

  lemma {:induction false} InsertAllPunctual(q: seq<Entry>, es: seq<Event>, clock: Clock, next: nat)
    requires Punctual(q, clock, next)
    requires forall i :: 0 <= i < |es| ==> es[i].delay >= 0 && es[i].id == next + i
    ensures Punctual(InsertAll(q, es, clock), clock, next + |es|)
    decreases |es|
  {
    if es != [] {
      hide Punctual, Insert;
      InsertPunctual(q, es[0], clock, next);
      InsertAllPunctual(Insert(q, es[0], es[0].delay, clock), es[1..], clock, next + 1);
    }
  }

  lemma CountDownTimed(q: seq<Entry>, clock: Clock)
    requires Timed(q, clock.counted)
    ensures Timed(CountDown(q), Ticked(clock, q).counted)
  {
    if q != [] && q[0].delta > 0 {
      var r := CountDown(q);
      assert r[1..] == q[1..];
      forall j | 1 <= j < |r| ensures r[j] == q[j] {
      }
    }
  }

  /** The entries due at the front are due exactly now, in the order they were queued; the rest stays in order. */
  lemma {:induction false} DueTimed(q: seq<Entry>, now: int)
    requires Timed(q, now)
    ensures Timed(q[Due(q)..], now)
    ensures Due(q) < |q| ==> q[Due(q)].delta >= 1
    ensures forall i :: 0 <= i < Due(q) ==> DueAt(q[i]) == now
    ensures forall i, j :: 0 <= i < j < Due(q) ==> q[i].event.id < q[j].event.id
  {
    var n := Due(q);
    if q == [] || q[0].delta > 0 {
      assert q[0..] == q;
    } else {
      DueTimed(q[1..], now);
      assert q[n..] == q[1..][n - 1..];
      forall i | 0 <= i < n ensures DueAt(q[i]) == now {
        if i > 0 {
          assert q[1..][i - 1] == q[i];
        }
      }
      forall i, j | 0 <= i < j < n ensures q[i].event.id < q[j].event.id {
        if i > 0 {
          assert q[1..][i - 1] == q[i] && q[1..][j - 1] == q[j];
        }
      }
    }
  }

  /**
   Delivered by the counting callback that the delay says, and without a delay by the next
   callback; in the order of these times and then of queueing.
  */
  ghost predicate InTime(ds: seq<Delivery>, clock: Clock) {
    && (forall i :: 0 <= i < |ds| ==>
          && ds[i].time.counted == ds[i].at.counted + ds[i].event.delay && ds[i].time.counted <= clock.counted
          && (ds[i].event.delay == 0 ==> Callbacks(ds[i].time) == Callbacks(ds[i].at) + 1))
    && (forall i, j :: 0 <= i < j < |ds| ==>
          || ds[i].time.counted < ds[j].time.counted
          || (ds[i].time.counted == ds[j].time.counted && ds[i].event.id < ds[j].event.id))
  }

  /** Delays are numbers of callbacks. */
  ghost predicate DelaysCount(log: seq<Event>) {
    forall i :: 0 <= i < |log| && log[i].kind == Completion ==> log[i].delay >= 0
  }

  ghost predicate DelaysPositive(log: seq<Event>) {
    forall i :: 0 <= i < |log| && log[i].kind == Completion ==> log[i].delay >= 1
  }

  /** What has been delivered was queued before the events numbered from `next` on, and before what is due already. */
  ghost predicate Before(ds: seq<Delivery>, q: seq<Entry>, clock: Clock, next: nat) {
    && (forall i :: 0 <= i < |ds| ==> ds[i].event.id < next)
    && (forall i, j :: 0 <= i < |ds| && 0 <= j < |q| && DueAt(q[j]) == clock.counted ==> ds[i].event.id < q[j].event.id)
  }

  /** The number of the first event that still waits. */
  function NextId(s: State): nat {
    if |s.waiting| <= |s.log| then |s.log| - |s.waiting| else 0
  }

  ghost predicate OnSchedule(s: State) {
    && Punctual(s.pending, s.clock, NextId(s))
    && InTime(s.delivered, s.clock)
    && Before(s.delivered, s.pending, s.clock, NextId(s))
  }

  lemma TickPunctual(q: seq<Entry>, clock: Clock, next: nat)
    requires Punctual(q, clock, next)
    ensures var counted := CountDown(q);
            var n := Due(counted);
            var now := Ticked(clock, q);
            && Punctual(counted[n..], now, next)
            && (forall i :: 0 <= i < |counted[n..]| ==> DueAt(counted[n..][i]) > now.counted)
            && (forall i :: 0 <= i < |q| ==> counted[i].event == q[i].event && counted[i].at == q[i].at)
            && (forall i :: 0 <= i < n ==> DueAt(counted[i]) == now.counted)
            && (forall i, j :: 0 <= i < j < n ==> counted[i].event.id < counted[j].event.id)
  {
    hide Timed, Due, CountDown, Ticked;
    PunctualTimed(q, clock, next);
    CountDownTimed(q, clock);
    var counted := CountDown(q);
    var now := Ticked(clock, q);
    DueTimed(counted, now.counted);
    CountDownSame(q);
    LaterAll(counted[Due(counted)..], now.counted);
    TickedOn(clock, q);
    RestPunctual(q, counted, Due(counted), clock, now, next);
  }

  lemma PunctualTimed(q: seq<Entry>, clock: Clock, next: nat)
    requires Punctual(q, clock, next)
    ensures Timed(q, clock.counted)
  {
    hide Timed;
  }

  lemma CountDownSame(q: seq<Entry>)
    ensures forall i :: 0 <= i < |q| ==> CountDown(q)[i].event == q[i].event && CountDown(q)[i].at == q[i].at
  {
  }

  lemma RestPunctual(q: seq<Entry>, counted: seq<Entry>, n: nat, clock: Clock, now: Clock, next: nat)
    requires Punctual(q, clock, next) && |counted| == |q| && n <= |q| && clock.counted <= now.counted
    requires forall i :: 0 <= i < |q| ==> counted[i].event == q[i].event && counted[i].at == q[i].at
    requires Timed(counted[n..], now.counted) && forall i ::
            0 <= i < |counted[n..]| ==> DueAt(counted[n..][i]) > now.counted
    ensures Punctual(counted[n..], now, next)
  {
    hide Timed;
    forall i | 0 <= i < |counted[n..]| ensures counted[n..][i] == counted[n + i] {
    }
  }

  lemma TickedOn(clock: Clock, q: seq<Entry>)
    ensures clock.counted <= Ticked(clock, q).counted && Callbacks(Ticked(clock, q)) == Callbacks(clock) + 1
    ensures Ticked(clock, q).counted == clock.counted <==> q != [] && q[0].delta <= 0
  {
  }

  /** Behind a first entry that is due later, all entries are. */
  lemma LaterAll(q: seq<Entry>, now: int)
    requires Timed(q, now) && (q != [] ==> q[0].delta >= 1)
    ensures forall i :: 0 <= i < |q| ==> DueAt(q[i]) > now
  {
    if q != [] {
      TimedAll(q[1..], now + q[0].delta);
      forall i | 1 <= i < |q| ensures DueAt(q[i]) > now {
        assert q[1..][i - 1] == q[i];
      }
    }
  }

  /** What is due at a callback has waited as long as its delay says. */
  lemma DeliverInTime(ds: seq<Delivery>, q: seq<Entry>, due: seq<Entry>, clock: Clock, next: nat)
    requires InTime(ds, clock) && Before(ds, q, clock, next) && Punctual(q, clock, next)
    requires |due| <= |q| && forall i :: 0 <= i < |due| ==> due[i].event == q[i].event && due[i].at == q[i].at
    requires forall i :: 0 <= i < |due| ==> DueAt(due[i]) == Ticked(clock, q).counted
    requires forall i, j :: 0 <= i < j < |due| ==> due[i].event.id < due[j].event.id
    ensures InTime(ds + Deliveries(due, Ticked(clock, q)), Ticked(clock, q))
    ensures forall d :: d in ds + Deliveries(due, Ticked(clock, q)) ==> d.event.id < next
  {
    hide Timed, Ticked;
    TickedOn(clock, q);
    var now := Ticked(clock, q);
    forall i | 0 <= i < |due|
      ensures due[i].event.id < next && (due[i].event.delay == 0 ==> due[i].at == clock && now.counted == clock.counted)
      ensures now.counted == clock.counted ==> forall k :: 0 <= k < |ds| ==> ds[k].event.id < due[i].event.id
    {
      assert DueAt(q[i]) == DueAt(due[i]);
    }
  }

  lemma TickOnSchedule(s: State)
    requires OnSchedule(s)
    ensures OnSchedule(Tick(s))
  {
    hide Punctual, Due, InTime, CountDown, Deliveries, Ticked;
    if !s.paused {
      var next := NextId(s);
      TickPunctual(s.pending, s.clock, next);
      var counted := CountDown(s.pending);
      var due := counted[..Due(counted)];
      DeliverInTime(s.delivered, s.pending, due, s.clock, next);
      var t := Tick(s);
      forall i | 0 <= i < |t.delivered| ensures t.delivered[i].event.id < next {
        assert t.delivered[i] in t.delivered;
      }
    }
  }

  lemma InsertBefore(ds: seq<Delivery>, q: seq<Entry>, e: Event, clock: Clock, next: nat)
    requires Before(ds, q, clock, next) && next <= e.id
    ensures Before(ds, Insert(q, e, e.delay, clock), clock, e.id + 1)
  {
    InsertAdds(q, e, e.delay, clock);
    hide Insert;
  }

  lemma {:induction false} InsertAllBefore(ds: seq<Delivery>, q: seq<Entry>, es: seq<Event>, clock: Clock, next: nat)
    requires Before(ds, q, clock, next)
    requires forall i :: 0 <= i < |es| ==> es[i].id == next + i
    ensures Before(ds, InsertAll(q, es, clock), clock, next + |es|)
    decreases |es|
  {
    if es != [] {
      hide Before, Insert;
      InsertBefore(ds, q, es[0], clock, next);
      InsertAllBefore(ds, Insert(q, es[0], es[0].delay, clock), es[1..], clock, next + 1);
    }
  }

  lemma QueueOnSchedule(s: State, kind: Kind, cmdId: int, result: int, leave: bool, delay: int, data: seq<int>)
    requires Ordered(s) && OnSchedule(s) && DelaysCount(Queue(s, kind, cmdId, result, leave, delay, data).log)
    ensures OnSchedule(Queue(s, kind, cmdId, result, leave, delay, data))
  {
    hide InTime, Insert, Punctual, Before;
    var t := Queue(s, kind, cmdId, result, leave, delay, data);
    var e := t.log[|s.log|];
    if kind == Completion && s.waiting == [] {
      InsertPunctual(s.pending, e, s.clock, |s.log|);
      InsertBefore(s.delivered, s.pending, e, s.clock, |s.log|);
    }
  }

  lemma MatchedOnSchedule(s: State)
    requires Ordered(s) && OnSchedule(s) && DelaysCount(s.log) && s.waiting != []
    ensures OnSchedule(Matched(s))
  {
    hide InTime, InsertAll, Timed;
    var rest := s.waiting[1..];
    var n := Leading(rest);
    var next := |s.log| - |s.waiting| + 1;
    forall i | 0 <= i < n ensures rest[..n][i].delay >= 0 && rest[..n][i].id == next + i {
      assert rest[i] == s.log[next + i];
    }
    InsertAllPunctual(s.pending, rest[..n], s.clock, next);
    InsertAllBefore(s.delivered, s.pending, rest[..n], s.clock, next);
  }

  lemma TakeOnSchedule(s: State, step: Step)
    requires Ok(s) && OnSchedule(s) && DelaysCount(Take(s, step).log)
    ensures OnSchedule(Take(s, step))
  {
    hide Accounted, Matched, Tick, Queue, Ordered, DelaysCount, OnSchedule, Discard;
    match step
    case DoQueue(kind, cmdId, result, leave, delay, data) =>
      QueueOnSchedule(s, kind, cmdId, result, leave, delay, data);
    case DoExecute(cmdId, accepts, checkData, ignore) =>
      if s.waiting != [] && Matches(s.waiting[0], cmdId, accepts, checkData) {
        SameLog(s);
        MatchedOnSchedule(s);
      } else if !ignore {
        DiscardOnSchedule(s.(failure := true, notices := s.notices + [FailureNotice]));
      }
    case DoTick => TickOnSchedule(s);
    case DoPause(paused) => FlagsOnSchedule(s, s.(paused := paused));
    case DoClose => DiscardOnSchedule(s.(failure := false));
  }

  lemma DiscardOnSchedule(s: State)
    ensures OnSchedule(Discard(s))
  {
  }

  lemma FlagsOnSchedule(s: State, t: State)
    requires OnSchedule(s) && t == s.(paused := t.paused)
    ensures OnSchedule(t)
  {
    hide Punctual, InTime, Before;
  }

  lemma SameLog(s: State)
    requires s.waiting != []
    ensures Matched(s).log == s.log
  {
  }

  lemma LogGrows(s: State, step: Step)
    ensures s.log <= Take(s, step).log
  {
  }

  lemma {:induction false} AfterOnSchedule(steps: seq<Step>)
    requires DelaysCount(After(Initial(), steps).log)
    ensures OnSchedule(After(Initial(), steps))
  {
    if steps != [] {
      var s := After(Initial(), steps[..|steps| - 1]);
      var step := steps[|steps| - 1];
      LogGrows(s, step);
      assert DelaysCount(s.log) by {
        forall i | 0 <= i < |s.log| ensures s.log[i] == Take(s, step).log[i] {
        }
      }
      hide Take, Ok, OnSchedule, DelaysCount;
      AfterOnSchedule(steps[..|steps| - 1]);
      AfterOk(steps[..|steps| - 1]);
      TakeOnSchedule(s, step);
    }
  }

  /**
   Over every run: a completion is delivered by exactly the counting callback that its
   delay says, so that it is held up by as many callbacks as have not counted meanwhile; one
   without a delay comes with the next callback; deliveries come in the order of these
   times, ties in the order of queueing; and what is pending is due later, or has no delay
   and has come since the last callback.
  */
  lemma CompletionsAreOnTime(steps: seq<Step>)
    requires DelaysCount(After(Initial(), steps).log)
    ensures var s := After(Initial(), steps);
            && InTime(s.delivered, s.clock)
            && (forall d :: d in s.delivered ==>
                  Callbacks(d.time) - Callbacks(d.at) == d.event.delay + (d.time.held - d.at.held))
            && (forall i :: 0 <= i < |s.pending| ==>
                  || DueAt(s.pending[i]) > s.clock.counted
                  || (s.pending[i].event.delay == 0 && s.pending[i].at == s.clock))
            && (s.pending != [] ==> s.timer)
  {
    hide After, Accounted, Ordered;
    AfterOnSchedule(steps);
    AfterOk(steps);
    var s := After(Initial(), steps);
    TimedAll(s.pending, s.clock.counted);
  }

  // ---------- the callbacks that do not count ----------

  /** Such a callback delivers a completion without a delay. */
  lemma HeldByZeroDelay(s: State)
    requires OnSchedule(s) && !s.paused && Tick(s).clock.held > s.clock.held
    ensures s.pending != [] && s.pending[0].event.delay == 0
    ensures Tick(s).delivered != [] && |Tick(s).delivered| > |s.delivered|
            && Tick(s).delivered[|s.delivered|].event == s.pending[0].event
  {
    hide InTime, Before;
  }

  /** Every pending completion has a delay, and no callback has been held up before it was queued. */
  ghost predicate AllDelayed(q: seq<Entry>) {
    forall i :: 0 <= i < |q| ==> q[i].event.delay >= 1 && q[i].at.held == 0
  }

  /** No callback was held up before these deliveries. */
  ghost predicate NoneHeld(ds: seq<Delivery>) {
    forall i :: 0 <= i < |ds| ==> ds[i].at.held == 0 && ds[i].time.held == 0
  }

  lemma InsertDelayed(q: seq<Entry>, e: Event, delay: int, at: Clock)
    requires AllDelayed(q) && e.delay >= 1 && at.held == 0
    ensures AllDelayed(Insert(q, e, delay, at))
  {
    InsertAdds(q, e, delay, at);
    hide Insert;
  }

  lemma {:induction false} InsertAllDelayed(q: seq<Entry>, es: seq<Event>, at: Clock)
    requires AllDelayed(q) && at.held == 0 && forall i :: 0 <= i < |es| ==> es[i].delay >= 1
    ensures AllDelayed(InsertAll(q, es, at))
    decreases |es|
  {
    if es != [] {
      hide Insert, AllDelayed;
      InsertDelayed(q, es[0], es[0].delay, at);
      InsertAllDelayed(Insert(q, es[0], es[0].delay, at), es[1..], at);
    }
  }

  lemma TakeDelayed(s: State, step: Step)
    requires Ok(s) && OnSchedule(s) && DelaysPositive(Take(s, step).log)
    requires AllDelayed(s.pending) && NoneHeld(s.delivered) && s.clock.held == 0
    ensures var t := Take(s, step); AllDelayed(t.pending) && NoneHeld(t.delivered) && t.clock.held == 0
  {
    hide Accounted, Matched, Tick, Insert, OnSchedule;
    match step
    case DoQueue(kind, cmdId, result, leave, delay, data) =>
      var e := Event(|s.log|, kind, cmdId, result, leave, delay, data);
      if kind == Completion && s.waiting == [] {
        assert Take(s, step).log[|s.log|] == e;
        InsertDelayed(s.pending, e, delay, s.clock);
      }
    case DoExecute(cmdId, accepts, checkData, ignore) =>
      if s.waiting != [] && Matches(s.waiting[0], cmdId, accepts, checkData) {
        SameLog(s);
        MatchedDelayed(s);
      }
    case DoTick => TickDelayed(s);
    case DoPause(paused) =>
    case DoClose =>
  }

  lemma MatchedDelayed(s: State)
    requires Ordered(s) && DelaysPositive(s.log) && AllDelayed(s.pending) && s.waiting != [] && s.clock.held == 0
    ensures AllDelayed(Matched(s).pending) && Matched(s).clock == s.clock && Matched(s).delivered == s.delivered
  {
    hide InsertAll;
    var rest := s.waiting[1..];
    var n := Leading(rest);
    forall i | 0 <= i < n ensures rest[..n][i].delay >= 1 {
      assert rest[i] == s.log[|s.log| - |s.waiting| + 1 + i];
    }
    InsertAllDelayed(s.pending, rest[..n], s.clock);
  }

  lemma TickDelayed(s: State)
    requires OnSchedule(s) && AllDelayed(s.pending) && NoneHeld(s.delivered) && s.clock.held == 0
    ensures AllDelayed(Tick(s).pending) && NoneHeld(Tick(s).delivered) && Tick(s).clock.held == 0
  {
    hide InTime, Before, Due;
    if !s.paused {
      var counted := CountDown(s.pending);
      forall i | 0 <= i < |s.pending|
        ensures counted[i].event == s.pending[i].event && counted[i].at == s.pending[i].at
      {
      }
      if Tick(s).clock.held > 0 {
        HeldByZeroDelay(s);
      }
    }
  }

  lemma {:induction false} AfterDelayed(steps: seq<Step>)
    requires DelaysPositive(After(Initial(), steps).log)
    ensures var s := After(Initial(), steps); AllDelayed(s.pending) && NoneHeld(s.delivered) && s.clock.held == 0
  {
    if steps != [] {
      var s := After(Initial(), steps[..|steps| - 1]);
      var step := steps[|steps| - 1];
      LogGrows(s, step);
      assert DelaysPositive(s.log) by {
        forall i | 0 <= i < |s.log| ensures s.log[i] == Take(s, step).log[i] {
        }
      }
      assert DelaysCount(s.log);
      hide Take, Ok, OnSchedule, DelaysPositive, AllDelayed, NoneHeld, DelaysCount;
      AfterDelayed(steps[..|steps| - 1]);
      AfterOk(steps[..|steps| - 1]);
      AfterOnSchedule(steps[..|steps| - 1]);
      TakeDelayed(s, step);
    }
  }

  /**
   If every completion has a positive delay, every callback counts: each completion comes
   with exactly the callback its delay says.
  */
  lemma DelaysAreKept(steps: seq<Step>)
    requires DelaysPositive(After(Initial(), steps).log)
    ensures var s := After(Initial(), steps);
            && s.clock.held == 0
            && (forall i :: 0 <= i < |s.delivered| ==>
                  var d := s.delivered[i]; Callbacks(d.time) == Callbacks(d.at) + d.event.delay)
            && (forall i :: 0 <= i < |s.pending| ==> Callbacks(s.clock) < DueAt(s.pending[i]))
  {
    assert DelaysCount(After(Initial(), steps).log);
    hide After, DelaysPositive, DelaysCount;
    CompletionsAreOnTime(steps);
    AfterDelayed(steps);
  }

  // ---------- the engine itself ----------

  class Engine {
    var waiting: seq<Event>
    var pending: seq<Entry>
    var failure: bool
    var paused: bool
    var timer: bool
    var queued: nat            // events queued so far: the identity of the next one
    var clock: Clock           // callbacks so far; only the history looks at it
    ghost var history: State   // the rest of the state

    /** The whole state as a value. */
    ghost function S(): State
      reads this
    {
      history.(waiting := waiting, pending := pending, failure := failure, paused := paused, timer := timer,
        clock := clock)
    }

    ghost predicate Valid()
      reads this
    {
      Ok(S()) && queued == |history.log|
    }

    constructor ()
      ensures Valid() && S() == Initial()
    {
      hide Ok;
      waiting, pending, failure, paused, timer, queued, clock := [], [], false, false, false, 0, Clock(0, 0);
      history := Initial();
      new;
      InitialOk();
    }

    /** TDeltaQue::Add: walk past the entries due no later, link in, and make the next delta relative. */
    method AddPending(e: Event, delay: int)
      modifies this`pending
      ensures pending == Insert(old(pending), e, delay, clock)
    {
      hide Insert;
      ghost var q := pending;
      var rest, i := delay, 0;
      assert q[..0] + Insert(q[0..], e, delay, clock) == Insert(q, e, delay, clock);
      while i < |pending| && rest >= pending[i].delta
        invariant 0 <= i <= |pending| && pending == q
        invariant Insert(q, e, delay, clock) == q[..i] + Insert(q[i..], e, rest, clock)
      {
        InsertAt(q, e, rest, clock, i);
        rest := rest - pending[i].delta;
        i := i + 1;
      }
      InsertAt(q, e, rest, clock, i);
      if i == |pending| {
        pending := pending + [Entry(e, rest, clock)];
      } else {
        var next := pending[i].(delta := pending[i].delta - rest);
        pending := pending[..i] + [Entry(e, rest, clock), next] + pending[i + 1..];
      }
    }

    /** DoQueueEventL */
    method QueueEvent(kind: Kind, cmdId: int, result: int, leave: bool, delay: int, data: seq<int>)
      requires Valid()
      modifies this
      ensures Valid() && S() == Queue(old(S()), kind, cmdId, result, leave, delay, data)
    {
      hide Ok, Insert;
      QueueOk(S(), kind, cmdId, result, leave, delay, data);
      var e := Event(queued, kind, cmdId, result, leave, delay, data);
      queued := queued + 1;
      history := history.(log := history.log + [e]);
      if kind == Completion && waiting == [] {
        AddPending(e, delay);
        if !timer {
          timer := true;
        }
      } else {
        waiting := waiting + [e];
      }
    }

    /** NotifyListeners */
    method Notify(notice: Notice)
      modifies this`history
      ensures history == old(history).(notices := old(history).notices + [notice])
    {
      history := history.(notices := history.notices + [notice]);
    }

    /** CountDown, then RemoveFirst until nothing is due; the removed entries in order. */
    method RemoveDue() returns (removed: seq<Entry>)
      modifies this`pending
      ensures var counted := CountDown(old(pending));
              removed == counted[..Due(counted)] && pending == counted[Due(counted)..]
    {
      hide Due, CountDown;
      CountedDown(pending);
      if pending != [] && pending[0].delta > 0 {
        pending := [pending[0].(delta := pending[0].delta - 1)] + pending[1..];
      }
      ghost var q := pending;
      removed := [];
      while pending != [] && pending[0].delta <= 0
        invariant q == removed + pending
        invariant Due(q) == |removed| + Due(pending)
        decreases |pending|
      {
        DueNext(pending);
        assert q == (removed + [pending[0]]) + pending[1..];
        removed := removed + [pending[0]];
        pending := pending[1..];
      }
      DueNext(pending);
    }

    /** Reset: the pending queue is counted down until it is empty. */
    method Reset()
      requires Ok(S()) && queued == |history.log|
      modifies this
      ensures Valid() && S() == Discard(old(S()))
    {
      hide Ok, Due, CountDown;
      DiscardOk(S());
      ghost var s := S();
      paused := false;
      while waiting != []
        invariant S() == s.(paused := false, waiting := waiting) && queued == |history.log|
        decreases |waiting|
      {
        waiting := waiting[1..];
      }
      while pending != []
        invariant S() == s.(paused := false, waiting := [], pending := pending) && queued == |history.log|
        decreases |pending|, if pending == [] || pending[0].delta <= 0 then 0 else pending[0].delta
      {
        CountingDown(pending);
        var _ := RemoveDue();
      }
      history := Discard(s);
    }

    /** Failure */
    method Failure()
      requires Valid()
      modifies this
      ensures Valid() && S() == Fail(old(S()))
    {
      hide Ok;
      failure := true;
      Notify(FailureNotice);
      FlagsOk(old(S()), S());
      Reset();
    }

    /** ExecuteCommandL; `ignore` is what CanIgnoreUnexpectedIpc says of the command. */
    method ExecuteCommand(cmdId: int, accepts: seq<int> -> bool, checkData: bool,
                          ignore: bool) returns (outcome: Outcome)
      requires Valid()
      modifies this
      ensures Valid() && (S(), outcome) == Execute(old(S()), cmdId, accepts, checkData, ignore)
    {
      hide Ok, Fail, Matched;
      if waiting == [] || cmdId != waiting[0].cmdId || (checkData && !accepts(waiting[0].data)) {
        if ignore {
          return Returned(KErrNone);
        }
        Failure();
        return Returned(KErrCorrupt);
      }
      var first := waiting[0];
      MatchedOk(S());
      ReleaseFirst();
      outcome := if first.leave then Left(first.result) else Returned(first.result);
    }

    /** The first expected command is taken, and the completions behind it become pending. */
    method ReleaseFirst()
      requires waiting != [] && queued == |history.log|
      modifies this
      ensures S() == Matched(old(S())) && queued == |history.log|
    {
      hide InsertAll, Leading;
      ghost var s := S();
      history := history.(matched := history.matched + [waiting[0]]);
      waiting := waiting[1..];
      ghost var rest := waiting;
      ghost var n := 0;
      while waiting != [] && waiting[0].kind == Completion
        invariant 0 <= n <= |rest| && waiting == rest[n..]
        invariant Leading(rest) == n + Leading(waiting)
        invariant S() == s.(matched := s.matched + [s.waiting[0]], waiting := waiting, pending := pending)
                && queued == |history.log|
        invariant InsertAll(s.pending, rest[..Leading(rest)], s.clock)
                == InsertAll(pending, waiting[..Leading(waiting)], s.clock)
        decreases |waiting|
      {
        ReleaseNext(pending, waiting, clock);
        AddPending(waiting[0], waiting[0].delay);
        waiting := waiting[1..];
        n := n + 1;
      }
      NoneLeading(waiting, pending, clock);
      if pending != [] && !timer {
        timer := true;
      }
      if pending == [] && waiting == [] {
        Notify(HandlingTerminated);
      } else {
        assert history.notices + [] == history.notices;
      }
    }

    /** DoTimerCallbackL */
    method TimerCallback()
      requires Valid()
      modifies this
      ensures Valid() && S() == Tick(old(S()))
    {
      hide Ok, Due, CountDown, Deliveries;
      TickOk(S());
      if paused {
        return;
      }
      clock := Ticked(clock, pending);
      var removed := RemoveDue();
      history := history.(delivered := history.delivered + Deliveries(removed, clock));
      if pending == [] {
        timer := false;
        if waiting == [] {
          Notify(HandlingTerminated);
          return;
        }
      }
      assert history.notices + [] == history.notices;
    }

    method PauseCompletion() returns (ret: int)
      requires Valid()
      modifies this`paused
      ensures Valid() && (S(), ret) == Pause(old(S()), true)
    {
      ret := if paused then KErrInUse else KErrNone;
      paused := true;
      FlagsOk(old(S()), S());
      hide Ok;
    }

    method ResumeCompletion() returns (ret: int)
      requires Valid()
      modifies this`paused
      ensures Valid() && (S(), ret) == Pause(old(S()), false)
    {
      ret := if !paused then KErrInUse else KErrNone;
      paused := false;
      FlagsOk(old(S()), S());
      hide Ok;
    }

    method SessionClosed()
      requires Valid()
      modifies this
      ensures Valid() && S() == Close(old(S()))
    {
      hide Ok;
      failure := false;
      FlagsOk(old(S()), S());
      Reset();
    }
  }

  /** Insertion at position `i` of the queue: walk on, or link in. */
  lemma InsertAt(q: seq<Entry>, e: Event, rest: int, clock: Clock, i: nat)
    requires i <= |q|
    ensures q[..i] + Insert(q[i..], e, rest, clock) ==
            if i == |q| then q + [Entry(e, rest, clock)]
            else if rest >= q[i].delta then q[..i + 1] + Insert(q[i + 1..], e, rest - q[i].delta, clock)
            else q[..i] + [Entry(e, rest, clock), q[i].(delta := q[i].delta - rest)] + q[i + 1..]
  {
    if i < |q| {
      assert q[i..][0] == q[i] && q[i..][1..] == q[i + 1..];
      assert q[..i + 1] == q[..i] + [q[i]];
    }
  }

  /** A countdown round removes an entry or brings the first one nearer. */
  lemma CountingDown(q: seq<Entry>)
    requires q != []
    ensures var counted := CountDown(q);
            || Due(counted) > 0
            || (Due(counted) == 0 && counted[0].delta == q[0].delta - 1 && q[0].delta > 1)
  {
  }

  lemma CountedDown(q: seq<Entry>)
    ensures CountDown(q) == if q != [] && q[0].delta > 0 then [q[0].(delta := q[0].delta - 1)] + q[1..] else q
  {
  }

  lemma DueNext(q: seq<Entry>)
    ensures Due(q) == if q == [] || q[0].delta > 0 then 0 else 1 + Due(q[1..])
  {
  }

  lemma ReleaseNext(pending: seq<Entry>, waiting: seq<Event>, clock: Clock)
    requires waiting != [] && waiting[0].kind == Completion
    ensures Leading(waiting) == 1 + Leading(waiting[1..])
    ensures InsertAll(pending, waiting[..Leading(waiting)], clock) ==
            InsertAll(Insert(pending, waiting[0], waiting[0].delay, clock), waiting[1..][..Leading(waiting[1..])],
              clock)
  {
    assert waiting[..Leading(waiting)][1..] == waiting[1..][..Leading(waiting[1..])];
  }

  lemma NoneLeading(waiting: seq<Event>, pending: seq<Entry>, clock: Clock)
    requires waiting == [] || waiting[0].kind == Message
    ensures Leading(waiting) == 0 && InsertAll(pending, waiting[..0], clock) == pending
  {
  }
}
