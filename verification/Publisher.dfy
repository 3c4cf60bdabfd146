/**
  The chart event publisher (chart_broker_shadow.py): two bounded queues, one worker that takes an item,
  tries to publish it a limited number of times, and counts what happened.

  The event loop may run enqueue_event between any two steps of the worker, so one publish attempt is
  two steps, Begin and End, and a run is any sequence of steps. The network's answer is part of End:
  an attempt that times out may still have reached the broker.
 */
module Publisher {
  import opened Options
  import opened PyText
  import opened ChartEvents

  datatype Item = Item(event: LiveEvent, volume: Option<real>)

  datatype Config = Config(queueMax: int, criticalQueueMax: int, finalRetries: int, partialRetries: int)

  function AtLeastOne(n: int): (r: nat)
    ensures r >= 1 && r >= n && (r == 1 || r == n)
  {
    if n > 1 then n else 1
  }

  function Attempts(c: Config, item: Item): nat {
    AtLeastOne(if item.event.isFinal then c.finalRetries else c.partialRetries)
  }

  /** A copy of an item that reached the broker; the time is all that differs between retries. */
  datatype Sent = Sent(item: Item, publishTsMs: int)

  function IdOf(m: Sent, ft: FloatText): string {
    MessageId(BuildPayload(m.item.event, m.item.volume, m.publishTsMs), ft)
  }

  /** tried counts the attempts that have ended. */
  datatype Worker = Idle | Waiting(item: Item, tried: nat) | Sending(item: Item, tried: nat)

  datatype Stats = Stats(attempt: nat, success: nat, failure: nat, partialDropped: nat, finalFailure: nat)

  datatype State = State(
    config: Config, started: bool, partials: seq<Item>, criticals: seq<Item>, worker: Worker, stats: Stats,
    broker: seq<Sent>)

  datatype Outcome = Acked | LostAck | NotSent

  datatype Event = Start | Enqueue(item: Item) | Take | Begin | End(outcome: Outcome, publishTsMs: int)

  function NewPublisher(c: Config): State {
    State(c, false, [], [], Idle, Stats(0, 0, 0, 0, 0), [])
  }

  // ----- What one step does -----

  predicate Accepts(s: State, item: Item) {
    s.started
    && (if item.event.isFinal then |s.criticals| < AtLeastOne(s.config.criticalQueueMax)
        else |s.partials| < AtLeastOne(s.config.queueMax))
  }

  function Refused(s: State, item: Item): Stats {
    var st := s.stats;
    if item.event.isFinal then st.(failure := st.failure + 1, finalFailure := st.finalFailure + 1)
    else if !s.started then st.(failure := st.failure + 1)
    else st.(partialDropped := st.partialDropped + 1)
  }

  function EnqueueStep(s: State, item: Item): State {
    if !Accepts(s, item) then s.(stats := Refused(s, item))
    else if item.event.isFinal then s.(criticals := s.criticals + [item])
    else s.(partials := s.partials + [item])
  }

  function TakeStep(s: State): State {
    if !s.started || s.worker != Idle then s
    else if s.criticals != [] then s.(criticals := s.criticals[1..], worker := Waiting(s.criticals[0], 0))
    else if s.partials != [] then s.(partials := s.partials[1..], worker := Waiting(s.partials[0], 0))
    else s
  }

  function BeginStep(s: State): State {
    if !s.worker.Waiting? then s
    else s.(worker := Sending(s.worker.item, s.worker.tried), stats := s.stats.(attempt := s.stats.attempt + 1))
  }

  predicate LastTry(s: State)
    requires !s.worker.Idle?
  {
    s.worker.tried + 1 >= Attempts(s.config, s.worker.item)
  }

  function EndStats(s: State, outcome: Outcome): Stats
    requires s.worker.Sending?
  {
    var st := s.stats;
    if outcome == Acked then st.(success := st.success + 1)
    else if LastTry(s) && s.worker.item.event.isFinal then
      st.(failure := st.failure + 1, finalFailure := st.finalFailure + 1)
    else st.(failure := st.failure + 1)
  }

  function Arrived(s: State, outcome: Outcome, publishTsMs: int): seq<Sent>
    requires s.worker.Sending?
  {
    if outcome == NotSent then [] else [Sent(s.worker.item, publishTsMs)]
  }

  function EndStep(s: State, outcome: Outcome, publishTsMs: int): State {
    if !s.worker.Sending? then s
    else
      s.(broker := s.broker + Arrived(s, outcome, publishTsMs), stats := EndStats(s, outcome),
         worker := if outcome == Acked || LastTry(s) then Idle else Waiting(s.worker.item, s.worker.tried + 1))
  }

  function Step(s: State, e: Event): State {
    match e
    case Start => s.(started := true)
    case Enqueue(item) => EnqueueStep(s, item)
    case Take => TakeStep(s)
    case Begin => BeginStep(s)
    case End(outcome, ts) => EndStep(s, outcome, ts)
  }

  function Run(s: State, events: seq<Event>): State
    decreases |events|
  {
    if events == [] then s else Run(Step(s, events[0]), events[1..])
  }

  // ----- What happened so far -----

  /** One item the worker is done with: the copies that reached the broker, the attempts, whether it was acked. */
  datatype Done = Done(item: Item, sent: seq<Sent>, acked: bool, tries: nat)

  /** Items accepted by lane, items taken by the worker, what became of them, and what was refused. */
  datatype History = History(
    finals: seq<Item>, partials: seq<Item>, taken: seq<Item>, done: seq<Done>, sent: seq<Sent>,
    refusedFinals: nat, refusedEarly: nat, refusedPartials: nat, arrived: nat)

  const NOTHING := History([], [], [], [], [], 0, 0, 0, 0)

  function NoteEnqueue(h: History, s: State, item: Item): History {
    if Accepts(s, item) then
      if item.event.isFinal then h.(finals := h.finals + [item]) else h.(partials := h.partials + [item])
    else if item.event.isFinal then h.(refusedFinals := h.refusedFinals + 1)
    else if !s.started then h.(refusedEarly := h.refusedEarly + 1)
    else h.(refusedPartials := h.refusedPartials + 1)
  }

  function NoteEnd(h: History, s: State, outcome: Outcome, publishTsMs: int): History {
    if !s.worker.Sending? then h
    else
      var sent := h.sent + Arrived(s, outcome, publishTsMs);
      var arrived := h.arrived + if outcome == Acked || outcome == LostAck then 1 else 0;
      if outcome == Acked || LastTry(s) then
        h.(arrived := arrived, sent := [],
           done := h.done + [Done(s.worker.item, sent, outcome == Acked, s.worker.tried + 1)])
      else h.(arrived := arrived, sent := sent)
  }

  function Note(h: History, s: State, e: Event): History {
    match e
    case Enqueue(item) => NoteEnqueue(h, s, item)
    case Take =>
      if s.worker.Idle? && TakeStep(s).worker.Waiting?
      then h.(taken := h.taken + [TakeStep(s).worker.item]) else h
    case End(outcome, ts) => NoteEnd(h, s, outcome, ts)
    case _ => h
  }

  function RunHistory(h: History, s: State, events: seq<Event>): History
    decreases |events|
  {
    if events == [] then h else RunHistory(Note(h, s, events[0]), Step(s, events[0]), events[1..])
  }

  // ----- What every state keeps -----

  /** The finals, or the partials, among some items, in order. */
  function Lane(items: seq<Item>, isFinal: bool): seq<Item> {
    if items == [] then []
    else if items[0].event.isFinal == isFinal then [items[0]] + Lane(items[1..], isFinal)
    else Lane(items[1..], isFinal)
  }

  function Items(done: seq<Done>): seq<Item> {
    if done == [] then [] else [done[0].item] + Items(done[1..])
  }

  function Copies(done: seq<Done>): seq<Sent> {
    if done == [] then [] else done[0].sent + Copies(done[1..])
  }

  function InFlight(w: Worker): seq<Item> {
    if w.Idle? then [] else [w.item]
  }

  function Acks(done: seq<Done>): nat {
    if done == [] then 0 else (if done[0].acked then 1 else 0) + Acks(done[1..])
  }

  function AckedFinals(done: seq<Done>): nat {
    if done == [] then 0 else (if done[0].acked && done[0].item.event.isFinal then 1 else 0) + AckedFinals(done[1..])
  }

  function LostFinals(done: seq<Done>): nat {
    if done == [] then 0 else (if !done[0].acked && done[0].item.event.isFinal then 1 else 0) + LostFinals(done[1..])
  }

  predicate AllOf(sent: seq<Sent>, item: Item) {
    forall i :: 0 <= i < |sent| ==> sent[i].item == item
  }

  function Tries(done: seq<Done>): nat {
    if done == [] then 0 else done[0].tries + Tries(done[1..])
  }

  /**
    At most as many copies as attempts, all of this item, and at least one when it was acknowledged; and it
    was given up only after the configured number of attempts, which is at least one.
   */
  predicate Sound(c: Config, d: Done) {
    var configured := if d.item.event.isFinal then c.finalRetries else c.partialRetries;
    && AllOf(d.sent, d.item) && |d.sent| <= d.tries && (d.acked ==> d.sent != [])
    && 1 <= d.tries && (d.tries > 1 ==> d.tries <= configured) && (!d.acked ==> d.tries >= configured)
  }

  predicate AllSound(c: Config, done: seq<Done>) {
    forall i :: 0 <= i < |done| ==> Sound(c, done[i])
  }

  predicate AllFinal(items: seq<Item>, isFinal: bool) {
    forall i :: 0 <= i < |items| ==> items[i].event.isFinal == isFinal
  }

  /** A lane is a queue: what was accepted is what was taken, then what still waits. */
  predicate InOrder(accepted: seq<Item>, taken: seq<Item>, queue: seq<Item>, isFinal: bool, limit: nat) {
    accepted == Lane(taken, isFinal) + queue && AllFinal(queue, isFinal) && |queue| <= limit
  }

  predicate Lanes(s: State, h: History) {
    && InOrder(h.finals, h.taken, s.criticals, true, AtLeastOne(s.config.criticalQueueMax))
    && InOrder(h.partials, h.taken, s.partials, false, AtLeastOne(s.config.queueMax))
    && (!s.started ==> s.worker.Idle? && s.criticals == [] && s.partials == [])
  }

  /** The broker's log is the copies of the items taken, in the order they were taken. */
  predicate Deliveries(s: State, h: History) {
    && h.taken == Items(h.done) + InFlight(s.worker)
    && s.broker == Copies(h.done) + h.sent && |s.broker| == h.arrived
    && AllSound(s.config, h.done)
    && (if s.worker.Idle? then h.sent == []
        else AllOf(h.sent, s.worker.item) && |h.sent| <= s.worker.tried < Attempts(s.config, s.worker.item))
  }

  predicate Counts(s: State, h: History) {
    && s.stats.attempt + h.refusedFinals + h.refusedEarly
       == s.stats.success + s.stats.failure + (if s.worker.Sending? then 1 else 0)
    && s.stats.success == Acks(h.done)
    && s.stats.finalFailure == h.refusedFinals + LostFinals(h.done)
    && s.stats.partialDropped == h.refusedPartials
    && s.stats.attempt == Tries(h.done) + (if s.worker.Idle? then 0 else s.worker.tried)
                          + (if s.worker.Sending? then 1 else 0)
  }

  predicate Good(s: State, h: History) {
    Lanes(s, h) && Deliveries(s, h) && Counts(s, h)
  }

  lemma LaneOfCons(items: seq<Item>, isFinal: bool)
    requires items != []
    ensures Lane(items, isFinal)
      == (if items[0].event.isFinal == isFinal then [items[0]] else []) + Lane(items[1..], isFinal)
  {
  }

  lemma {:induction false} LaneOfConcat(a: seq<Item>, b: seq<Item>, isFinal: bool)
    ensures Lane(a + b, isFinal) == Lane(a, isFinal) + Lane(b, isFinal)
  {
    if a == [] {
      assert a + b == b;
    } else {
      LaneOfConcat(a[1..], b, isFinal);
      assert (a + b)[1..] == a[1..] + b;
      LaneOfCons(a, isFinal);
      LaneOfCons(a + b, isFinal);
      hide Lane;
    }
  }

  lemma LaneAccepts(accepted: seq<Item>, taken: seq<Item>, queue: seq<Item>, item: Item, limit: nat)
    requires InOrder(accepted, taken, queue, item.event.isFinal, limit) && |queue| < limit
    ensures InOrder(accepted + [item], taken, queue + [item], item.event.isFinal, limit)
  {
    hide Lane;
  }

  lemma LaneTakes(accepted: seq<Item>, taken: seq<Item>, queue: seq<Item>, isFinal: bool, limit: nat)
    requires InOrder(accepted, taken, queue, isFinal, limit) && queue != []
    ensures queue[0].event.isFinal == isFinal && InOrder(accepted, taken + [queue[0]], queue[1..], isFinal, limit)
  {
    LaneOfConcat(taken, [queue[0]], isFinal);
    assert Lane([queue[0]], isFinal) == [queue[0]];
    assert queue == [queue[0]] + queue[1..];
  }

  lemma OtherLaneTakes(taken: seq<Item>, item: Item)
    ensures Lane(taken + [item], !item.event.isFinal) == Lane(taken, !item.event.isFinal)
  {
    LaneOfConcat(taken, [item], !item.event.isFinal);
    assert Lane([item], !item.event.isFinal) == [];
  }

  lemma {:induction false} ItemsGrow(done: seq<Done>, d: Done)
    ensures Items(done + [d]) == Items(done) + [d.item]
  {
    if done == [] {
      assert done + [d] == [d];
    } else {
      ItemsGrow(done[1..], d);
      assert (done + [d])[1..] == done[1..] + [d];
      assert [done[0].item] + (Items(done[1..]) + [d.item]) == Items(done) + [d.item];
    }
  }

  lemma {:induction false} CopiesGrow(done: seq<Done>, d: Done)
    ensures Copies(done + [d]) == Copies(done) + d.sent
  {
    if done == [] {
      assert done + [d] == [d];
      assert Copies([d]) == d.sent;
    } else {
      CopiesGrow(done[1..], d);
      assert (done + [d])[1..] == done[1..] + [d];
      assert done[0].sent + (Copies(done[1..]) + d.sent) == Copies(done) + d.sent;
    }
  }

  lemma {:induction false} CountsGrow(done: seq<Done>, d: Done)
    ensures Acks(done + [d]) == Acks(done) + (if d.acked then 1 else 0)
    ensures LostFinals(done + [d]) == LostFinals(done) + (if !d.acked && d.item.event.isFinal then 1 else 0)
    ensures Tries(done + [d]) == Tries(done) + d.tries
  {
    if done == [] {
      assert done + [d] == [d];
    } else {
      CountsGrow(done[1..], d);
      assert (done + [d])[1..] == done[1..] + [d];
    }
  }

  lemma EnqueueKeeps(s: State, h: History, item: Item)
    requires Good(s, h)
    ensures Good(EnqueueStep(s, item), NoteEnqueue(h, s, item))
  {
    hide InOrder, AtLeastOne, AllSound;
    if Accepts(s, item) {
      if item.event.isFinal {
        LaneAccepts(h.finals, h.taken, s.criticals, item, AtLeastOne(s.config.criticalQueueMax));
      } else {
        LaneAccepts(h.partials, h.taken, s.partials, item, AtLeastOne(s.config.queueMax));
      }
    }
  }

  lemma TakeKeeps(s: State, h: History)
    requires Good(s, h)
    ensures Good(TakeStep(s), Note(h, s, Take))
  {
    hide AllSound, Items;
    if s.started && s.worker.Idle? {
      if s.criticals != [] {
        LaneTakes(h.finals, h.taken, s.criticals, true, AtLeastOne(s.config.criticalQueueMax));
        OtherLaneTakes(h.taken, s.criticals[0]);
      } else if s.partials != [] {
        LaneTakes(h.partials, h.taken, s.partials, false, AtLeastOne(s.config.queueMax));
        OtherLaneTakes(h.taken, s.partials[0]);
      }
    }
  }

  lemma EndKeeps(s: State, h: History, outcome: Outcome, ts: int)
    requires Good(s, h)
    ensures Good(EndStep(s, outcome, ts), NoteEnd(h, s, outcome, ts))
  {
    hide InOrder;
    if s.worker.Sending? {
      var sent := h.sent + Arrived(s, outcome, ts);
      assert s.broker + Arrived(s, outcome, ts) == Copies(h.done) + sent;
      if outcome == Acked || LastTry(s) {
        var d := Done(s.worker.item, sent, outcome == Acked, s.worker.tried + 1);
        ItemsGrow(h.done, d);
        CopiesGrow(h.done, d);
        CountsGrow(h.done, d);
      }
    }
  }

  lemma StepKeeps(s: State, h: History, e: Event)
    requires Good(s, h)
    ensures Good(Step(s, e), Note(h, s, e))
  {
    hide EnqueueStep, NoteEnqueue, TakeStep, EndStep, NoteEnd;
    match e
    case Enqueue(item) => EnqueueKeeps(s, h, item);
    case Take => TakeKeeps(s, h);
    case End(outcome, ts) => EndKeeps(s, h, outcome, ts);
    case _ =>
  }

  lemma {:induction false} RunKeeps(s: State, h: History, events: seq<Event>)
    requires Good(s, h)
    ensures Good(Run(s, events), RunHistory(h, s, events))
    decreases |events|
  {
    hide Good, Step, Note;
    if events != [] {
      StepKeeps(s, h, events[0]);
      RunKeeps(Step(s, events[0]), Note(h, s, events[0]), events[1..]);
    }
  }

  lemma NewIsGood(c: Config)
    ensures Good(NewPublisher(c), NOTHING)
  {
  }

  // ----- The promises -----

  lemma {:induction false} FinalsCount(done: seq<Done>)
    ensures |Lane(Items(done), true)| == AckedFinals(done) + LostFinals(done)
  {
    if done != [] {
      FinalsCount(done[1..]);
      LaneOfConcat([done[0].item], Items(done[1..]), true);
    }
  }

  /**
    Over every run: each final accepted so far is queued, in flight, published by the loop, or counted in
    broker_publish_final_failure_total, which counts nothing else but the finals refused on arrival; and
    between attempts, attempts plus refusals are successes plus failures. Every attempt is one at an item
    in flight or done, and the dropped partials are those refused by a full lane.
   */
  lemma EveryFinalIsAccountedFor(c: Config, events: seq<Event>)
    ensures var s, h := Run(NewPublisher(c), events), RunHistory(NOTHING, NewPublisher(c), events);
      && |h.finals| == |s.criticals| + |Lane(InFlight(s.worker), true)| + AckedFinals(h.done)
                       + (s.stats.finalFailure - h.refusedFinals)
      && (!s.worker.Sending? ==>
            s.stats.attempt + h.refusedFinals + h.refusedEarly == s.stats.success + s.stats.failure)
      && s.stats.success == Acks(h.done) && s.stats.partialDropped == h.refusedPartials
      && (s.worker.Idle? ==> s.stats.attempt == Tries(h.done))
  {
    hide Run, RunHistory;
    NewIsGood(c);
    RunKeeps(NewPublisher(c), NOTHING, events);
    var s, h := Run(NewPublisher(c), events), RunHistory(NOTHING, NewPublisher(c), events);
    LaneOfConcat(Items(h.done), InFlight(s.worker), true);
    FinalsCount(h.done);
  }

  /** A partial is taken only once every final accepted so far has been taken, and lanes stay in order. */
  lemma FinalsGoFirst(c: Config, events: seq<Event>)
    ensures var s, h := Run(NewPublisher(c), events), RunHistory(NOTHING, NewPublisher(c), events);
      && Lane(h.taken, true) <= h.finals && Lane(h.taken, false) <= h.partials
      && (s.worker.Idle? && TakeStep(s).worker.Waiting? && !TakeStep(s).worker.item.event.isFinal ==>
            Lane(h.taken, true) == h.finals)
  {
    hide Run, RunHistory;
    NewIsGood(c);
    RunKeeps(NewPublisher(c), NOTHING, events);
  }

  /**
    Whether an item is accepted, in terms of the steps so far: the publisher was started, and fewer items
    of its lane than max(1, limit) were accepted and not yet taken.
   */
  lemma AcceptedIff(c: Config, events: seq<Event>, item: Item)
    ensures var s, h := Run(NewPublisher(c), events), RunHistory(NOTHING, NewPublisher(c), events);
      var waiting := if item.event.isFinal then |h.finals| - |Lane(h.taken, true)|
                     else |h.partials| - |Lane(h.taken, false)|;
      var limit := if item.event.isFinal then c.criticalQueueMax else c.queueMax;
      Accepts(s, item) <==> Event.Start in events && (waiting < 1 || waiting < limit)
  {
    hide Run, RunHistory;
    NewIsGood(c);
    RunKeeps(NewPublisher(c), NOTHING, events);
    ConfigStays(NewPublisher(c), events);
    StartedIff(NewPublisher(c), events);
  }

  lemma {:induction false} StartedIff(s: State, events: seq<Event>)
    ensures Run(s, events).started <==> s.started || Event.Start in events
    decreases |events|
  {
    if events != [] {
      StartedIff(Step(s, events[0]), events[1..]);
      assert events == [events[0]] + events[1..];
    }
  }

  /**
    The broker receives the items in the order they were taken: a block per item of at most
    max(1, retries) copies, never empty for an acknowledged item. It has a copy for every attempt that was
    acknowledged or lost its acknowledgement.
   */
  lemma BrokerLogIsInOrder(c: Config, events: seq<Event>)
    ensures var s, h := Run(NewPublisher(c), events), RunHistory(NOTHING, NewPublisher(c), events);
      && s.broker == Copies(h.done) + h.sent && AllSound(c, h.done) && |s.broker| == h.arrived
      && h.taken == Items(h.done) + InFlight(s.worker)
      && (h.sent != [] ==> !s.worker.Idle? && AllOf(h.sent, s.worker.item) && |h.sent| < Attempts(c, s.worker.item))
  {
    hide Run, RunHistory;
    NewIsGood(c);
    RunKeeps(NewPublisher(c), NOTHING, events);
    ConfigStays(NewPublisher(c), events);
  }

  lemma {:induction false} ConfigStays(s: State, events: seq<Event>)
    ensures Run(s, events).config == s.config
    decreases |events|
  {
    if events != [] {
      ConfigStays(Step(s, events[0]), events[1..]);
    }
  }

  /** All copies of a final share one message id, so the broker can recognise retries as duplicates. */
  lemma RetriesShareAnId(a: Sent, b: Sent, ft: FloatText)
    requires WellFormed(a.item.event) && WellFormed(b.item.event)
    requires a.item.event.isFinal && b.item.event.isFinal
    ensures a.item == b.item ==> IdOf(a, ft) == IdOf(b, ft)
    ensures IdOf(a, ft) == IdOf(b, ft) <==> IdempotencyKey(a.item.event) == IdempotencyKey(b.item.event)
  {
    CriticalMessageId(a.item.event, a.item.volume, a.publishTsMs, ft);
    CriticalMessageId(b.item.event, b.item.volume, b.publishTsMs, ft);
  }

  // ----- The publisher object -----

  datatype Answer = Answer(outcome: Outcome, publishTsMs: int)

  /** The attempts at the item in flight, undisturbed, until one is acknowledged or none is left. */
  function Attempted(s: State, answers: seq<Answer>): State
    decreases |answers|
  {
    if !s.worker.Waiting? || answers == [] then s
    else Attempted(EndStep(BeginStep(s), answers[0].outcome, answers[0].publishTsMs), answers[1..])
  }

  class EventPublisher {
    const config: Config
    var started: bool
    var partialQueue: seq<Item>
    var criticalQueue: seq<Item>
    var worker: Worker
    var stats: Stats
    var broker: seq<Sent>

    constructor (c: Config)
      ensures config == c && View() == NewPublisher(c)
    {
      config := c;
      started, partialQueue, criticalQueue, worker := false, [], [], Idle;
      stats, broker := Stats(0, 0, 0, 0, 0), [];
    }

    function View(): State
      reads this
    {
      State(config, started, partialQueue, criticalQueue, worker, stats, broker)
    }

    method Start()
      modifies this`started
      ensures View() == Step(old(View()), Event.Start)
    {
      started := true;
    }

    method EnqueueEvent(item: Item) returns (accepted: bool)
      modifies this
      ensures View() == Step(old(View()), Enqueue(item))
      ensures accepted <==> Accepts(old(View()), item)
    {
      if !started {
        stats := stats.(failure := stats.failure + 1);
        if item.event.isFinal {
          stats := stats.(finalFailure := stats.finalFailure + 1);
        }
        return false;
      }
      if item.event.isFinal {
        if |criticalQueue| >= AtLeastOne(config.criticalQueueMax) {
          stats := stats.(failure := stats.failure + 1);
          stats := stats.(finalFailure := stats.finalFailure + 1);
          return false;
        }
        criticalQueue := criticalQueue + [item];
      } else {
        if |partialQueue| >= AtLeastOne(config.queueMax) {
          stats := stats.(partialDropped := stats.partialDropped + 1);
          return false;
        }
        partialQueue := partialQueue + [item];
      }
      return true;
    }

    /** The next item, if any queue holds one: finals before partials. */
    method NextItem() returns (item: Option<Item>)
      requires started && worker.Idle?
      modifies this
      ensures View() == Step(old(View()), Take)
      ensures item == if worker.Waiting? then Some(worker.item) else None
    {
      if |criticalQueue| > 0 {
        item := Some(criticalQueue[0]);
        criticalQueue := criticalQueue[1..];
      } else if |partialQueue| > 0 {
        item := Some(partialQueue[0]);
        partialQueue := partialQueue[1..];
      } else {
        return None;
      }
      worker := Waiting(item.value, 0);
    }

    /** Publish one taken item; answers says what the network does to each attempt. */
    method PublishItem(item: Item, answers: seq<Answer>)
      requires worker == Waiting(item, 0) && |answers| == Attempts(config, item)
      modifies this
      ensures View() == Attempted(old(View()), answers)
      ensures worker.Idle?
    {
      hide Attempted;
      var attempts := AtLeastOne(if item.event.isFinal then config.finalRetries else config.partialRetries);
      var attempt := 0;
      while attempt < attempts
        invariant 0 <= attempt <= attempts
        invariant worker == if attempt < attempts then Waiting(item, attempt) else Idle
        invariant Attempted(View(), answers[attempt..]) == Attempted(old(View()), answers)
      {
        var answer := answers[attempt];
        ghost var before := View();
        AttemptOnce(before, answers, attempt);
        stats := stats.(attempt := stats.attempt + 1);
        if answer.outcome != NotSent {
          broker := broker + [Sent(item, answer.publishTsMs)];
        }
        if answer.outcome == Acked {
          stats := stats.(success := stats.success + 1);
          worker := Idle;
          Finished(View(), answers[attempt + 1..]);
          return;
        }
        stats := stats.(failure := stats.failure + 1);
        attempt := attempt + 1;
        if attempt < attempts {
          worker := Waiting(item, attempt);
        } else {
          worker := Idle;
          if item.event.isFinal {
            stats := stats.(finalFailure := stats.finalFailure + 1);
          }
        }
        assert View() == Tried(before, answer);
      }
      Finished(View(), answers[attempt..]);
    }
  }

  /** The state after one attempt and its answer. */
  function Tried(s: State, answer: Answer): State {
    EndStep(BeginStep(s), answer.outcome, answer.publishTsMs)
  }

  lemma AttemptOnce(s: State, answers: seq<Answer>, n: nat)
    requires n < |answers| && s.worker.Waiting?
    ensures Attempted(s, answers[n..]) == Attempted(Tried(s, answers[n]), answers[n + 1..])
    ensures answers[0..] == answers
  {
    assert answers[n..][1..] == answers[n + 1..];
  }

  lemma Finished(s: State, answers: seq<Answer>)
    requires s.worker.Idle?
    ensures Attempted(s, answers) == s
  {
  }

  /** Undisturbed attempts are steps of a run, so every promise above covers them. */
  lemma {:induction false} AttemptsAreSteps(s: State, answers: seq<Answer>) returns (events: seq<Event>)
    requires s.worker.Waiting?
    ensures Run(s, events) == Attempted(s, answers) && |events| <= 2 * |answers|
    decreases |answers|
  {
    if answers == [] {
      return [];
    }
    var begun := BeginStep(s);
    var ended := EndStep(begun, answers[0].outcome, answers[0].publishTsMs);
    var rest := [];
    if ended.worker.Waiting? {
      rest := AttemptsAreSteps(ended, answers[1..]);
    }
    var end := End(answers[0].outcome, answers[0].publishTsMs);
    events := [Event.Begin, end] + rest;
    assert events[1..] == [end] + rest && events[1..][1..] == rest;
    assert Run(begun, events[1..]) == Run(ended, rest);
  }
}
