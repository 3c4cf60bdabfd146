/**
  From the publisher to the tables: the worker is delivered copies of what the publisher sent, in any
  order, any number of times and with any faults, and stores each published candle event at most once.
 */
module Pipeline {
  import opened Options
  import opened ChartEvents
  import PyText
  import P = Publisher
  import W = DurableWriter

  // ----- What the publisher sent was enqueued -----

  /** The items that a run enqueues. */
  function Enqueued(steps: seq<P.Event>): set<P.Item> {
    set e | e in steps && e.Enqueue? :: e.item
  }

  predicate AllIn(items: seq<P.Item>, all: set<P.Item>) {
    forall i :: 0 <= i < |items| ==> items[i] in all
  }

  /** Whatever the publisher holds or has sent is one of these items. */
  predicate Within(s: P.State, all: set<P.Item>) {
    && AllIn(s.partials, all) && AllIn(s.criticals, all) && (s.worker.Idle? || s.worker.item in all)
    && forall i :: 0 <= i < |s.broker| ==> s.broker[i].item in all
  }

  lemma StepStaysWithin(s: P.State, e: P.Event, all: set<P.Item>)
    requires Within(s, all) && (e.Enqueue? ==> e.item in all)
    ensures Within(P.Step(s, e), all)
  {
    hide P.AtLeastOne;
  }

  lemma {:induction false} RunStaysWithin(s: P.State, steps: seq<P.Event>, all: set<P.Item>)
    requires Within(s, all) && Enqueued(steps) <= all
    ensures Within(P.Run(s, steps), all)
    decreases |steps|
  {
    hide Within, P.Step;
    if steps != [] {
      assert steps[0] in steps && forall e :: e in steps[1..] ==> e in steps;
      assert steps[0].Enqueue? ==> steps[0].item in Enqueued(steps);
      assert Enqueued(steps[1..]) <= Enqueued(steps);
      StepStaysWithin(s, steps[0], all);
      RunStaysWithin(P.Step(s, steps[0]), steps[1..], all);
    }
  }

  // ----- What the worker is delivered -----

  function BodyOf(m: P.Sent): Payload {
    BuildPayload(m.item.event, m.item.volume, m.publishTsMs)
  }

  /** Every delivery carries a message of the broker's log, or bytes that are no payload. */
  predicate FromLog(ds: seq<W.Delivery>, broker: seq<P.Sent>) {
    forall d :: d in ds && d.body.Some? ==> exists i :: 0 <= i < |broker| && d.body == Some(BodyOf(broker[i]))
  }

  /** The delivery carries a copy of the item. */
  ghost predicate Copies(d: W.Delivery, item: P.Item) {
    exists ts :: d.body == Some(BuildPayload(item.event, item.volume, ts))
  }

  lemma DeliveredWasEnqueued(
    c: P.Config, steps: seq<P.Event>, ds: seq<W.Delivery>, d: W.Delivery) returns (item: P.Item)
    requires FromLog(ds, P.Run(P.NewPublisher(c), steps).broker) && d in ds && d.body.Some?
    ensures item in Enqueued(steps) && Copies(d, item)
  {
    hide P.Run;
    var s := P.Run(P.NewPublisher(c), steps);
    RunStaysWithin(P.NewPublisher(c), steps, Enqueued(steps));
    var i :| 0 <= i < |s.broker| && d.body == Some(BodyOf(s.broker[i]));
    item := s.broker[i].item;
    assert d.body == Some(BuildPayload(item.event, item.volume, s.broker[i].publishTsMs));
  }

  /**
    For any run of the publisher over constructed events and any deliveries from its broker log, the
    tables are those of the committed deliveries run once each without faults; each of these stores a
    final or reconcile that was enqueued, under its own id, and no two share an id; no candle is committed
    more than twice; and no row is, as long as only one exchange writes it.
   */
  lemma PublishedOnceStoredOnce(c: P.Config, steps: seq<P.Event>, cfg: W.Config, ds: seq<W.Delivery>, ft: FloatText)
    requires cfg.decode == W.Standard("", "", "", "", true, ft).decode
    requires forall item :: item in Enqueued(steps) ==> WellFormed(item.event)
    requires FromLog(ds, P.Run(P.NewPublisher(c), steps).broker)
    ensures var none := W.Tables(map[], map[]);
      var log := W.Effects(cfg, {}, ds);
      && W.Run(cfg, none, ds) == W.Run(cfg, none, W.CleanAll(log))
      && W.Run(cfg, none, ds).dedupe.Keys == W.Ids(cfg, log)
      && (forall d :: d in log ==> StoresEnqueued(cfg, d, steps))
      && (forall i, j :: 0 <= i < j < |log| ==> W.Id(cfg, log[i]) != W.Id(cfg, log[j]))
      && (forall i, j, k :: 0 <= i < j < k < |log| ==>
            && !(W.SameCandle(cfg, log[i], log[j]) && W.SameCandle(cfg, log[j], log[k]))
            && !(W.SameRow(cfg, log[i], log[j]) && W.SameRow(cfg, log[j], log[k])
                 && W.SameExchange(log[i], log[j]) && W.SameExchange(log[j], log[k])))
  {
    hide P.Run, W.Run, W.Effects, W.CleanAll, W.Standard, FromLog, Enqueued, W.Event, StoresEnqueued, W.Published,
         W.SameCandle, W.SameRow, W.SameExchange, W.Id;
    var none := W.Tables(map[], map[]);
    var log := W.Effects(cfg, {}, ds);
    assert none.dedupe.Keys == {};
    W.SameAsDuplicateFreeRun(cfg, none, ds);
    W.DedupeIsTheLog(cfg, none, ds);
    W.EffectsComeFromRun(cfg, {}, ds);
    forall d | d in ds
      ensures d.body.None? || W.Published(d)
    {
      if d.body.Some? {
        var item := DeliveredWasEnqueued(c, steps, ds, d);
        CopyIsPublished(d, item);
      }
    }
    W.EachCandleAtMostTwice(cfg, {}, ds, ft);
    W.EachRowAtMostTwice(cfg, {}, ds, ft);
    forall d | d in log
      ensures StoresEnqueued(cfg, d, steps)
    {
      StoredWasEnqueued(c, steps, cfg, ds, d, ft);
    }
    forall i, j | 0 <= i < j < |log|
      ensures W.Id(cfg, log[i]) != W.Id(cfg, log[j])
    {
      W.EffectsAreDistinct(cfg, {}, ds, i, j);
    }
  }

  lemma CopyIsPublished(d: W.Delivery, item: P.Item)
    requires Copies(d, item) && WellFormed(item.event)
    ensures W.Published(d)
  {
    hide WellFormed, BuildPayload;
  }

  /** The delivery's event is a final or reconcile that was enqueued, with its candle and its ids. */
  ghost predicate StoresEnqueued(cfg: W.Config, d: W.Delivery, steps: seq<P.Event>) {
    && W.Event(cfg, d).Some?
    && exists item :: item in Enqueued(steps) && item.event.isFinal && Stores(W.Event(cfg, d).value, item)
  }

  predicate Stores(e: DurableEvent, item: P.Item) {
    Carries(e, item.event, item.volume) && e.eventId == PyText.Strip(IdempotencyKey(item.event))
  }

  lemma StoredWasEnqueued(
    c: P.Config, steps: seq<P.Event>, cfg: W.Config, ds: seq<W.Delivery>, d: W.Delivery, ft: FloatText)
    requires cfg.decode == W.Standard("", "", "", "", true, ft).decode
    requires forall item :: item in Enqueued(steps) ==> WellFormed(item.event)
    requires FromLog(ds, P.Run(P.NewPublisher(c), steps).broker)
    requires d in ds && W.Event(cfg, d).Some?
    ensures StoresEnqueued(cfg, d, steps)
  {
    hide P.Run, FromLog, Enqueued, Stores, DecodeForStorage;
    var item := DeliveredWasEnqueued(c, steps, ds, d);
    CopyStores(cfg, d, item, ft);
  }

  lemma CopyStores(cfg: W.Config, d: W.Delivery, item: P.Item, ft: FloatText)
    requires cfg.decode == W.Standard("", "", "", "", true, ft).decode
    requires WellFormed(item.event) && Copies(d, item) && W.Event(cfg, d).Some?
    ensures item.event.isFinal && Stores(W.Event(cfg, d).value, item)
  {
    hide DecodeForStorage, BuildPayload, Carries, IdempotencyKey;
    var ts :| d.body == Some(BuildPayload(item.event, item.volume, ts));
    StorageRoundTrip(item.event, item.volume, ts, ft);
    assert W.Event(cfg, d) == DecodeForStorage(BuildPayload(item.event, item.volume, ts), ft);
  }

  /**
    And what was acknowledged is there: once a storable final or reconcile was delivered and acked, its id
    is in the dedupe table in every later state.
   */
  lemma AckedCopyIsStored(
    cfg: W.Config, t: W.Tables, before: seq<W.Delivery>, d: W.Delivery, after: seq<W.Delivery>, item: P.Item,
    ft: FloatText)
    requires cfg.decode == W.Standard("", "", "", "", true, ft).decode
    requires WellFormed(item.event) && Copies(d, item)
    ensures W.Event(cfg, d).Some? && W.SignalFor(cfg, W.Run(cfg, t, before), d) == W.Ack ==>
      PyText.Strip(IdempotencyKey(item.event)) in W.Run(cfg, t, before + [d] + after).dedupe
  {
    hide W.Run, W.SignalFor, Carries, Copies, IdempotencyKey, W.Event, W.Standard, WellFormed;
    if W.Event(cfg, d).Some? {
      CopyStores(cfg, d, item, ft);
      W.AckedIsStored(cfg, t, before, d, after);
    }
  }
}
