/**
  The durable writer for final and reconcile candles (chart_nats_final_durable.py).

  The broker delivers a message at least once.  The worker writes a dedupe row and a candle row in one
  transaction and acknowledges afterwards.  Database failures before or after the commit, lost
  acknowledgements, shutdowns in mid-message and redeliveries are inputs of a delivery; the theorems
  hold for every sequence of deliveries.
 */
module DurableWriter {
  import opened Options
  import opened PyText
  import opened ChartEvents

  // ----- Tables -----

  datatype RowKey = RowKey(symbol: string, intervalMin: int, barTimeMs: int)

  datatype CandleRow = CandleRow(
    open: real, high: real, low: real, close: real,
    volume: Option<real>, turnover: Option<real>, source: string)

  datatype DedupeRow = DedupeRow(
    eventType: EventType, candleKey: string, row: RowKey, subject: string, streamSequence: Option<int>)

  datatype Tables = Tables(dedupe: map<string, DedupeRow>, candles: map<RowKey, CandleRow>)

  // ----- Configuration and inputs -----

  /**
    Source names, the two event ids at which a test run makes the store fail ("" for none), and the
    payload decoder.  The run theorems hold for every decoder; Standard is the worker's own.
   */
  datatype Config = Config(
    finalSource: string, reconcileSource: string, failBeforeCommit: string, failAfterCommit: string,
    termInvalid: bool, decode: Payload -> Option<DurableEvent>)

  function Standard(
    finalSource: string, reconcileSource: string, failBefore: string, failAfter: string, termInvalid: bool,
    ft: FloatText): Config {
    Config(finalSource, reconcileSource, failBefore, failAfter, termInvalid, (p: Payload) => DecodeForStorage(p, ft))
  }

  /** What the database does to one transaction: LostAfterCommit persists it and still raises. */
  datatype DbFault = NoFault | Lost | LostAfterCommit

  /** How the worker's part ends, when the write did not raise. */
  datatype Ending = AckArrives | AckRaises | CancelledInWrite | CancelledInAck

  datatype Delivery = Delivery(
    body: Option<Payload>, subject: string, streamSequence: Option<int>, numDelivered: int,
    fault: DbFault, ending: Ending)

  datatype Signal = Ack | Nak | Term | Silent

  datatype WriteOutcome = Duplicate | Inserted | Raised

  datatype Stats = Stats(
    seen: nat, ack: nat, nak: nat, term: nat, schemaDrop: nat, dbWrite: nat, duplicate: nat, redelivery: nat)

  function RowKeyOf(e: DurableEvent): RowKey {
    RowKey(e.symbol, e.intervalMin, e.barTimeMs)
  }

  function CandleRowOf(cfg: Config, e: DurableEvent): CandleRow {
    CandleRow(
      e.candle.open, e.candle.high, e.candle.low, e.candle.close, e.volume, e.turnover,
      if e.eventType == Reconcile then cfg.reconcileSource else cfg.finalSource)
  }

  function DedupeRowOf(e: DurableEvent, d: Delivery): DedupeRow {
    DedupeRow(e.eventType, e.candleKey, RowKeyOf(e), d.subject, d.streamSequence)
  }

  /** The event in a delivery; none when the bytes are not an acceptable payload. */
  function Event(cfg: Config, d: Delivery): Option<DurableEvent> {
    match d.body
    case None => None
    case Some(p) => cfg.decode(p)
  }

  // ----- One transaction and one message, as functions of the state -----

  function Commit(cfg: Config, t: Tables, e: DurableEvent, d: Delivery): Tables {
    Tables(t.dedupe[e.eventId := DedupeRowOf(e, d)], t.candles[RowKeyOf(e) := CandleRowOf(cfg, e)])
  }

  /** Whether a delivery of e commits, given the ids that are already in the dedupe table. */
  predicate Effective(cfg: Config, seen: set<string>, e: DurableEvent, fault: DbFault) {
    fault != Lost && e.eventId !in seen && e.eventId != cfg.failBeforeCommit
  }

  function Outcome(cfg: Config, seen: set<string>, e: DurableEvent, fault: DbFault): WriteOutcome {
    if fault != NoFault then Raised
    else if e.eventId in seen then Duplicate
    else if e.eventId == cfg.failBeforeCommit || e.eventId == cfg.failAfterCommit then Raised
    else Inserted
  }

  function WriteTables(cfg: Config, t: Tables, e: DurableEvent, d: Delivery): Tables {
    if Effective(cfg, t.dedupe.Keys, e, d.fault) then Commit(cfg, t, e, d) else t
  }

  function SignalFor(cfg: Config, t: Tables, d: Delivery): Signal {
    match Event(cfg, d)
    case None => if cfg.termInvalid then Term else Nak
    case Some(e) =>
      if d.ending == CancelledInWrite then Silent
      else if Outcome(cfg, t.dedupe.Keys, e, d.fault) == Raised then Nak
      else if d.ending == AckArrives then Ack
      else if d.ending == AckRaises then Nak
      else Silent
  }

  function HandleTables(cfg: Config, t: Tables, d: Delivery): Tables {
    match Event(cfg, d)
    case None => t
    case Some(e) => WriteTables(cfg, t, e, d)
  }

  function HandleStats(cfg: Config, t: Tables, s: Stats, d: Delivery): Stats {
    var s1 := s.(seen := s.seen + 1, redelivery := s.redelivery + if d.numDelivered > 1 then 1 else 0);
    var signal := SignalFor(cfg, t, d);
    var s2 := s1.(ack := s1.ack + if signal == Ack then 1 else 0,
                  nak := s1.nak + if signal == Nak then 1 else 0,
                  term := s1.term + if signal == Term then 1 else 0);
    match Event(cfg, d)
    case None => s2.(schemaDrop := s2.schemaDrop + 1)
    case Some(e) =>
      var outcome := Outcome(cfg, t.dedupe.Keys, e, d.fault);
      if d.ending == CancelledInWrite then s2
      else if outcome == Duplicate then s2.(duplicate := s2.duplicate + 1)
      else if outcome == Inserted then s2.(dbWrite := s2.dbWrite + 1)
      else s2
  }

  // ----- The store and the consumer -----

  class FinalReconcileStore {
    const cfg: Config
    var dedupe: map<string, DedupeRow>
    var candles: map<RowKey, CandleRow>

    constructor (cfg: Config)
      ensures this.cfg == cfg && View() == Tables(map[], map[])
    {
      this.cfg := cfg;
      dedupe, candles := map[], map[];
    }

    function View(): Tables
      reads this
    {
      Tables(dedupe, candles)
    }

    /** One transaction: insert the dedupe row, upsert the candle, commit. */
    method WriteEvent(e: DurableEvent, d: Delivery) returns (outcome: WriteOutcome)
      modifies this
      ensures View() == WriteTables(cfg, old(View()), e, d)
      ensures outcome == Outcome(cfg, old(dedupe.Keys), e, d.fault)
    {
      if d.fault == Lost {
        return Raised;
      }
      if e.eventId in dedupe {
        return if d.fault == NoFault then Duplicate else Raised;
      }
      var pendingDedupe := dedupe[e.eventId := DedupeRowOf(e, d)];
      if e.eventId == cfg.failBeforeCommit {
        return Raised;
      }
      var pendingCandles := candles[RowKeyOf(e) := CandleRowOf(cfg, e)];
      dedupe, candles := pendingDedupe, pendingCandles;
      if d.fault == LostAfterCommit || e.eventId == cfg.failAfterCommit {
        return Raised;
      }
      return Inserted;
    }
  }

  class FinalDurableConsumer {
    const store: FinalReconcileStore
    var stats: Stats

    constructor (store: FinalReconcileStore)
      ensures this.store == store && stats == Stats(0, 0, 0, 0, 0, 0, 0, 0)
    {
      this.store := store;
      stats := Stats(0, 0, 0, 0, 0, 0, 0, 0);
    }

    method HandleMessage(d: Delivery) returns (signal: Signal)
      modifies this, store
      ensures store.View() == HandleTables(store.cfg, old(store.View()), d)
      ensures stats == HandleStats(store.cfg, old(store.View()), old(stats), d)
      ensures signal == SignalFor(store.cfg, old(store.View()), d)
    {
      stats := stats.(seen := stats.seen + 1);
      if d.numDelivered > 1 {
        stats := stats.(redelivery := stats.redelivery + 1);
      }
      var event := Event(store.cfg, d);
      if event.None? {
        signal := HandleInvalid();
        return;
      }
      var outcome := store.WriteEvent(event.value, d);
      if d.ending == CancelledInWrite {
        return Silent;
      }
      if outcome == Raised {
        stats := stats.(nak := stats.nak + 1);
        return Nak;
      }
      if outcome == Duplicate {
        stats := stats.(duplicate := stats.duplicate + 1);
      } else {
        stats := stats.(dbWrite := stats.dbWrite + 1);
      }
      match d.ending
      case AckArrives =>
        stats := stats.(ack := stats.ack + 1);
        signal := Ack;
      case AckRaises =>
        stats := stats.(nak := stats.nak + 1);
        signal := Nak;
      case _ =>
        signal := Silent;
    }

    method HandleInvalid() returns (signal: Signal)
      modifies this
      ensures signal == if store.cfg.termInvalid then Term else Nak
      ensures stats == old(stats).(
        schemaDrop := old(stats).schemaDrop + 1,
        term := old(stats).term + if store.cfg.termInvalid then 1 else 0,
        nak := old(stats).nak + if store.cfg.termInvalid then 0 else 1)
    {
      stats := stats.(schemaDrop := stats.schemaDrop + 1);
      if store.cfg.termInvalid {
        stats := stats.(term := stats.term + 1);
        signal := Term;
      } else {
        stats := stats.(nak := stats.nak + 1);
        signal := Nak;
      }
    }
  }

  // ----- Runs -----

  /** The tables after a run of deliveries. */
  function Run(cfg: Config, t: Tables, ds: seq<Delivery>): Tables
    decreases |ds|
  {
    if ds == [] then t else Run(cfg, HandleTables(cfg, t, ds[0]), ds[1..])
  }

  function RunStats(cfg: Config, t: Tables, s: Stats, ds: seq<Delivery>): Stats
    decreases |ds|
  {
    if ds == [] then s
    else RunStats(cfg, HandleTables(cfg, t, ds[0]), HandleStats(cfg, t, s, ds[0]), ds[1..])
  }

  /**
    The reference: the deliveries that take effect, read off the run without any table.  A delivery
    takes effect when it is the first of its event id that the database does not lose.
   */
  function Effects(cfg: Config, seen: set<string>, ds: seq<Delivery>): (log: seq<Delivery>)
    ensures forall d :: d in log ==> Event(cfg, d).Some?
    decreases |ds|
  {
    if ds == [] then []
    else
      match Event(cfg, ds[0])
      case None => Effects(cfg, seen, ds[1..])
      case Some(e) =>
        if Effective(cfg, seen, e, ds[0].fault)
        then [ds[0]] + Effects(cfg, seen + {e.eventId}, ds[1..])
        else Effects(cfg, seen, ds[1..])
  }

  function Id(cfg: Config, d: Delivery): string
    requires Event(cfg, d).Some?
  {
    Event(cfg, d).value.eventId
  }

  function Ids(cfg: Config, log: seq<Delivery>): set<string>
    requires forall d :: d in log ==> Event(cfg, d).Some?
  {
    set d | d in log :: Id(cfg, d)
  }

  /** Applying a log to tables, one commit after the other. */
  function Fold(cfg: Config, t: Tables, log: seq<Delivery>): Tables
    requires forall d :: d in log ==> Event(cfg, d).Some?
    decreases |log|
  {
    if log == [] then t
    else Fold(cfg, Commit(cfg, t, Event(cfg, log[0]).value, log[0]), log[1..])
  }

  /** Exactly-once effect: the tables are the fold of the effective deliveries, in their order. */
  lemma {:induction false} TablesAreFoldOfEffects(cfg: Config, t: Tables, ds: seq<Delivery>)
    ensures Run(cfg, t, ds) == Fold(cfg, t, Effects(cfg, t.dedupe.Keys, ds))
    decreases |ds|
  {
    if ds != [] {
      var t' := HandleTables(cfg, t, ds[0]);
      TablesAreFoldOfEffects(cfg, t', ds[1..]);
      var log := Effects(cfg, t.dedupe.Keys, ds);
      match Event(cfg, ds[0])
      case None =>
      case Some(e) =>
        if Effective(cfg, t.dedupe.Keys, e, ds[0].fault) {
          assert t'.dedupe.Keys == t.dedupe.Keys + {e.eventId};
          assert log[1..] == Effects(cfg, t'.dedupe.Keys, ds[1..]);
        }
    }
  }

  /** No id takes effect twice, and none that was stored before takes effect again. */
  lemma {:induction false} EffectsAreDistinct(cfg: Config, seen: set<string>, ds: seq<Delivery>, i: nat, j: nat)
    requires i < j < |Effects(cfg, seen, ds)|
    ensures var log := Effects(cfg, seen, ds);
      && Id(cfg, log[i]) != Id(cfg, log[j])
      && Id(cfg, log[i]) !in seen && Id(cfg, log[j]) !in seen
    decreases |ds|
  {
    EffectsAvoidSeen(cfg, seen, ds);
    var log := Effects(cfg, seen, ds);
    match Event(cfg, ds[0])
    case None =>
      EffectsAreDistinct(cfg, seen, ds[1..], i, j);
    case Some(e) =>
      if Effective(cfg, seen, e, ds[0].fault) {
        var rest := Effects(cfg, seen + {e.eventId}, ds[1..]);
        assert log == [ds[0]] + rest;
        EffectsAvoidSeen(cfg, seen + {e.eventId}, ds[1..]);
        if i == 0 {
          assert log[j] == rest[j - 1] && rest[j - 1] in rest;
        } else {
          EffectsAreDistinct(cfg, seen + {e.eventId}, ds[1..], i - 1, j - 1);
        }
      } else {
        EffectsAreDistinct(cfg, seen, ds[1..], i, j);
      }
  }

  lemma {:induction false} EffectsAvoidSeen(cfg: Config, seen: set<string>, ds: seq<Delivery>)
    ensures forall d :: d in Effects(cfg, seen, ds) ==>
      Id(cfg, d) !in seen && d.fault != Lost && Id(cfg, d) != cfg.failBeforeCommit
    decreases |ds|
  {
    if ds != [] {
      EffectsAvoidSeen(cfg, seen, ds[1..]);
      if Event(cfg, ds[0]).Some? {
        EffectsAvoidSeen(cfg, seen + {Id(cfg, ds[0])}, ds[1..]);
      }
    }
  }

  /** The dedupe table is exactly the ids stored before plus the ids that took effect. */
  lemma DedupeIsTheLog(cfg: Config, t: Tables, ds: seq<Delivery>)
    ensures Run(cfg, t, ds).dedupe.Keys == t.dedupe.Keys + Ids(cfg, Effects(cfg, t.dedupe.Keys, ds))
  {
    TablesAreFoldOfEffects(cfg, t, ds);
    FoldKeys(cfg, t, Effects(cfg, t.dedupe.Keys, ds));
  }

  lemma NoIds(cfg: Config)
    ensures Ids(cfg, []) == {}
  {
  }

  lemma IdsCons(cfg: Config, d: Delivery, log: seq<Delivery>)
    requires Event(cfg, d).Some? && forall x :: x in log ==> Event(cfg, x).Some?
    ensures Ids(cfg, [d] + log) == {Id(cfg, d)} + Ids(cfg, log)
  {
    var all := [d] + log;
    assert all[0] == d;
    forall x | x in log ensures x in all {
      var i :| 0 <= i < |log| && log[i] == x;
      assert all[i + 1] == x;
    }
  }

  lemma {:induction false} FoldKeys(cfg: Config, t: Tables, log: seq<Delivery>)
    requires forall d :: d in log ==> Event(cfg, d).Some?
    ensures Fold(cfg, t, log).dedupe.Keys == t.dedupe.Keys + Ids(cfg, log)
    decreases |log|
  {
    if log != [] {
      var t' := Commit(cfg, t, Event(cfg, log[0]).value, log[0]);
      FoldKeys(cfg, t', log[1..]);
      assert log == [log[0]] + log[1..];
      IdsCons(cfg, log[0], log[1..]);
    }
  }

  // ----- Acknowledged means stored -----

  lemma {:induction false} DedupeOnlyGrows(cfg: Config, t: Tables, ds: seq<Delivery>)
    ensures t.dedupe.Keys <= Run(cfg, t, ds).dedupe.Keys
    decreases |ds|
  {
    if ds != [] {
      DedupeOnlyGrows(cfg, HandleTables(cfg, t, ds[0]), ds[1..]);
    }
  }

  lemma {:induction false} RunSplits(cfg: Config, t: Tables, xs: seq<Delivery>, ys: seq<Delivery>)
    ensures Run(cfg, t, xs + ys) == Run(cfg, Run(cfg, t, xs), ys)
    decreases |xs|
  {
    if xs == [] {
      assert xs + ys == ys;
    } else {
      RunSplits(cfg, HandleTables(cfg, t, xs[0]), xs[1..], ys);
      assert (xs + ys)[1..] == xs[1..] + ys;
    }
  }

  /**
    A message is acknowledged only if its event is in the dedupe table, at that point and ever after.
    The converse delivery guarantee: one delivery that the database does not lose is enough.
   */
  lemma AckedIsStored(cfg: Config, t: Tables, before: seq<Delivery>, d: Delivery, after: seq<Delivery>)
    requires Event(cfg, d).Some?
    ensures SignalFor(cfg, Run(cfg, t, before), d) == Ack
      ==> Id(cfg, d) in Run(cfg, t, before + [d] + after).dedupe.Keys
    ensures d.fault != Lost && Id(cfg, d) != cfg.failBeforeCommit
      ==> Id(cfg, d) in Run(cfg, t, before + [d] + after).dedupe.Keys
  {
    RunSplits(cfg, t, before + [d], after);
    RunSplits(cfg, t, before, [d]);
    var t1 := Run(cfg, t, before);
    assert Run(cfg, t1, [d]) == HandleTables(cfg, t1, d);
    DedupeOnlyGrows(cfg, Run(cfg, t, before + [d]), after);
  }

  // ----- When a message is acknowledged, and when an id is stored -----

  /** The delivery brings the event of this id. */
  predicate Brings(cfg: Config, d: Delivery, id: string) {
    Event(cfg, d).Some? && Event(cfg, d).value.eventId == id
  }

  /** One of these deliveries brings the id, and the database does not lose its transaction. */
  ghost predicate StoredBy(cfg: Config, ds: seq<Delivery>, id: string) {
    id != cfg.failBeforeCommit && exists i :: 0 <= i < |ds| && Brings(cfg, ds[i], id) && ds[i].fault != Lost
  }

  lemma {:induction false} StoredIff(cfg: Config, t: Tables, ds: seq<Delivery>, id: string)
    ensures id in Run(cfg, t, ds).dedupe <==> id in t.dedupe || StoredBy(cfg, ds, id)
    decreases |ds|
  {
    if ds != [] {
      StoredIff(cfg, HandleTables(cfg, t, ds[0]), ds[1..], id);
      StoredStep(cfg, t, ds[0], id);
      hide HandleTables, Run;
      assert ds == [ds[0]] + ds[1..];
      assert (exists i :: 0 <= i < |ds| && Brings(cfg, ds[i], id) && ds[i].fault != Lost) <==>
        (Brings(cfg, ds[0], id) && ds[0].fault != Lost)
        || exists i :: 0 <= i < |ds[1..]| && Brings(cfg, ds[1..][i], id) && ds[1..][i].fault != Lost;
    }
  }

  lemma StoredStep(cfg: Config, t: Tables, d: Delivery, id: string)
    ensures id in HandleTables(cfg, t, d).dedupe <==>
      id in t.dedupe || (id != cfg.failBeforeCommit && Brings(cfg, d, id) && d.fault != Lost)
  {
  }

  /**
    The answer to a valid message after any run: without a database fault, and unless it is cut off or its
    acknowledgement fails, it is acknowledged as soon as its id is stored, by this delivery or an earlier
    one; the two ids at which a test makes the store fail are refused the first time.
   */
  lemma AnswerIff(cfg: Config, ds: seq<Delivery>, d: Delivery, id: string)
    requires Brings(cfg, d, id)
    ensures var none := Tables(map[], map[]);
      var signal := SignalFor(cfg, Run(cfg, none, ds), d);
      var written := d.fault == NoFault
        && (StoredBy(cfg, ds, id) || id !in {cfg.failBeforeCommit, cfg.failAfterCommit});
      && (signal == Silent <==> d.ending == CancelledInWrite || (written && d.ending == CancelledInAck))
      && (signal == Ack <==> written && d.ending == AckArrives)
      && (signal == Nak <==> d.ending != CancelledInWrite && (!written || d.ending == AckRaises))
  {
    hide Run;
    StoredIff(cfg, Tables(map[], map[]), ds, id);
  }

  // ----- Duplicates change nothing -----

  lemma {:induction false} EffectsSplit(cfg: Config, seen: set<string>, xs: seq<Delivery>, ys: seq<Delivery>)
    ensures Effects(cfg, seen, xs + ys)
      == Effects(cfg, seen, xs) + Effects(cfg, seen + Ids(cfg, Effects(cfg, seen, xs)), ys)
    decreases |xs|
  {
    hide Event, Ids;
    if xs == [] {
      assert xs + ys == ys;
      NoIds(cfg);
      assert seen + Ids(cfg, []) == seen;
    } else {
      assert (xs + ys)[1..] == xs[1..] + ys;
      match Event(cfg, xs[0])
      case None =>
        EffectsSplit(cfg, seen, xs[1..], ys);
      case Some(e) =>
        if Effective(cfg, seen, e, xs[0].fault) {
          var rest := Effects(cfg, seen + {e.eventId}, xs[1..]);
          EffectsSplit(cfg, seen + {e.eventId}, xs[1..], ys);
          IdsCons(cfg, xs[0], rest);
          assert seen + Ids(cfg, [xs[0]] + rest) == seen + {e.eventId} + Ids(cfg, rest);
        } else {
          EffectsSplit(cfg, seen, xs[1..], ys);
        }
    }
  }

  /** A publisher retry or a redelivery of something already stored leaves the whole run's tables alone. */
  lemma DuplicateIsInvisible(cfg: Config, t: Tables, xs: seq<Delivery>, dup: Delivery, ys: seq<Delivery>)
    requires Event(cfg, dup).Some? ==> Id(cfg, dup) in Run(cfg, t, xs).dedupe.Keys
    ensures Run(cfg, t, xs + [dup] + ys) == Run(cfg, t, xs + ys)
  {
    RunSplits(cfg, t, xs + [dup], ys);
    RunSplits(cfg, t, xs, [dup]);
    RunSplits(cfg, t, xs, ys);
    assert Run(cfg, Run(cfg, t, xs), [dup]) == HandleTables(cfg, Run(cfg, t, xs), dup);
  }

  function Clean(d: Delivery): Delivery {
    d.(fault := NoFault, ending := AckArrives)
  }

  function CleanAll(ds: seq<Delivery>): seq<Delivery> {
    seq(|ds|, i requires 0 <= i < |ds| => Clean(ds[i]))
  }

  /** The tables of any run are those of a fault-free run that delivers each stored event once. */
  lemma SameAsDuplicateFreeRun(cfg: Config, t: Tables, ds: seq<Delivery>)
    ensures Run(cfg, t, ds) == Run(cfg, t, CleanAll(Effects(cfg, t.dedupe.Keys, ds)))
  {
    var log := Effects(cfg, t.dedupe.Keys, ds);
    TablesAreFoldOfEffects(cfg, t, ds);
    EffectsAvoidSeen(cfg, t.dedupe.Keys, ds);
    forall i, j | 0 <= i < j < |log| ensures Id(cfg, log[i]) != Id(cfg, log[j]) {
      EffectsAreDistinct(cfg, t.dedupe.Keys, ds, i, j);
    }
    CleanRunFolds(cfg, t, log);
  }

  lemma {:induction false} CleanRunFolds(cfg: Config, t: Tables, log: seq<Delivery>)
    requires forall d :: d in log ==> Event(cfg, d).Some?
    requires forall d :: d in log ==> Id(cfg, d) !in t.dedupe && Id(cfg, d) != cfg.failBeforeCommit
    requires forall i, j :: 0 <= i < j < |log| ==> Id(cfg, log[i]) != Id(cfg, log[j])
    ensures Run(cfg, t, CleanAll(log)) == Fold(cfg, t, log)
    decreases |log|
  {
    if log != [] {
      var e := Event(cfg, log[0]).value;
      var t' := Commit(cfg, t, e, log[0]);
      assert CleanAll(log)[1..] == CleanAll(log[1..]);
      assert HandleTables(cfg, t, Clean(log[0])) == t';
      forall d | d in log[1..] ensures Id(cfg, d) !in t'.dedupe {
        var j :| 1 <= j < |log| && log[j] == d;
        assert Id(cfg, log[0]) != Id(cfg, log[j]);
      }
      CleanRunFolds(cfg, t', log[1..]);
    }
  }

  /** Publisher retries differ in their publish time only, and decode to one and the same event. */
  lemma RetriesAreOneEvent(e: LiveEvent, volume: Option<real>, ts1: int, ts2: int, ft: FloatText)
    ensures DecodeForStorage(BuildPayload(e, volume, ts1), ft) == DecodeForStorage(BuildPayload(e, volume, ts2), ft)
  {
    DecodeIgnoresPublishTime(BuildPayload(e, volume, ts1), JInt(ts2), ft);
  }

  lemma DecodeIgnoresPublishTime(p: Payload, ts: Json, ft: FloatText)
    ensures DecodeForStorage(p.(publishTsMs := ts), ft) == DecodeForStorage(p, ft)
  {
    var q := p.(publishTsMs := ts);
    assert DurableCandle(p) == DurableCandle(q);
  }

  // ----- What the candle table holds -----

  /** The last delivery of a log that writes a given row. */
  function LastWrite(cfg: Config, log: seq<Delivery>, key: RowKey): (r: Option<Delivery>)
    requires forall d :: d in log ==> Event(cfg, d).Some?
    ensures r.Some? ==> r.value in log && RowKeyOf(Event(cfg, r.value).value) == key
    decreases |log|
  {
    if log == [] then None
    else
      var last := log[|log| - 1];
      if RowKeyOf(Event(cfg, last).value) == key then Some(last)
      else LastWrite(cfg, log[..|log| - 1], key)
  }

  lemma {:induction false} FoldSnoc(cfg: Config, t: Tables, log: seq<Delivery>, d: Delivery)
    requires forall x :: x in log ==> Event(cfg, x).Some?
    requires Event(cfg, d).Some?
    ensures Fold(cfg, t, log + [d]) == Commit(cfg, Fold(cfg, t, log), Event(cfg, d).value, d)
    decreases |log|
  {
    if log == [] {
      assert log + [d] == [d];
    } else {
      assert (log + [d])[1..] == log[1..] + [d];
      FoldSnoc(cfg, Commit(cfg, t, Event(cfg, log[0]).value, log[0]), log[1..], d);
    }
  }

  lemma {:induction false} FoldHoldsLastWrite(cfg: Config, t: Tables, log: seq<Delivery>, key: RowKey)
    requires forall d :: d in log ==> Event(cfg, d).Some?
    ensures var candles := Fold(cfg, t, log).candles;
      match LastWrite(cfg, log, key)
      case Some(d) => key in candles && candles[key] == CandleRowOf(cfg, Event(cfg, d).value)
      case None => (key in candles <==> key in t.candles) && (key in candles ==> candles[key] == t.candles[key])
    decreases |log|
  {
    if log != [] {
      var front, last := log[..|log| - 1], log[|log| - 1];
      assert log == front + [last];
      FoldSnoc(cfg, t, front, last);
      FoldHoldsLastWrite(cfg, t, front, key);
    }
  }

  /** After any run, each candle row is what the last effective delivery for that bar wrote. */
  lemma RowIsLastWrite(cfg: Config, t: Tables, ds: seq<Delivery>, key: RowKey)
    ensures var log := Effects(cfg, t.dedupe.Keys, ds);
            var candles := Run(cfg, t, ds).candles;
      match LastWrite(cfg, log, key)
      case Some(d) =>
        var e := Event(cfg, d).value;
        key in candles && candles[key] == CandleRow(
          e.candle.open, e.candle.high, e.candle.low, e.candle.close, e.volume, e.turnover,
          if e.eventType == Reconcile then cfg.reconcileSource else cfg.finalSource)
      case None => (key in candles <==> key in t.candles) && (key in candles ==> candles[key] == t.candles[key])
  {
    TablesAreFoldOfEffects(cfg, t, ds);
    FoldHoldsLastWrite(cfg, t, Effects(cfg, t.dedupe.Keys, ds), key);
  }

  /** The delivery writes the row of this bar. */
  predicate WritesBar(cfg: Config, d: Delivery, symbol: string, interval: int, start: int) {
    && Event(cfg, d).Some? && Event(cfg, d).value.symbol == symbol
    && Event(cfg, d).value.intervalMin == interval && Event(cfg, d).value.barTimeMs == start
  }

  lemma {:induction false} LastWriteAt(cfg: Config, log: seq<Delivery>, i: nat, key: RowKey)
    requires (forall d :: d in log ==> Event(cfg, d).Some?) && i < |log|
    requires RowKeyOf(Event(cfg, log[i]).value) == key
    requires forall j :: i < j < |log| ==> RowKeyOf(Event(cfg, log[j]).value) != key
    ensures LastWrite(cfg, log, key) == Some(log[i])
    decreases |log|
  {
    if i < |log| - 1 {
      assert log[|log| - 1] in log;
      LastWriteAt(cfg, log[..|log| - 1], i, key);
    }
  }

  lemma {:induction false} FoldHoldsDedupe(cfg: Config, t: Tables, log: seq<Delivery>, i: nat)
    requires (forall d :: d in log ==> Event(cfg, d).Some?) && i < |log|
    requires forall j :: i < j < |log| ==> Id(cfg, log[i]) != Id(cfg, log[j])
    ensures var dedupe := Fold(cfg, t, log).dedupe;
      Id(cfg, log[i]) in dedupe && dedupe[Id(cfg, log[i])] == DedupeRowOf(Event(cfg, log[i]).value, log[i])
    decreases |log|
  {
    var front, last := log[..|log| - 1], log[|log| - 1];
    assert log == front + [last];
    FoldSnoc(cfg, t, front, last);
    if i < |log| - 1 {
      FoldHoldsDedupe(cfg, t, front, i);
    }
  }

  /**
    What is in the tables, end to end: after any run, the row of a bar whose last committed delivery the
    publisher built from e holds the prices of e, the volume that was sent and no turnover; and every
    committed delivery of the publisher has its dedupe row.
   */
  lemma StoredAsPublished(
    cfg: Config, t: Tables, ds: seq<Delivery>, i: nat, e: LiveEvent, volume: Option<real>, ts: int, ft: FloatText)
    requires cfg.decode == Standard("", "", "", "", true, ft).decode && WellFormed(e)
    requires i < |Effects(cfg, t.dedupe.Keys, ds)|
    requires Effects(cfg, t.dedupe.Keys, ds)[i].body == Some(BuildPayload(e, volume, ts))
    ensures var log, after := Effects(cfg, t.dedupe.Keys, ds), Run(cfg, t, ds);
      var bar, id := RowKey(e.symbol, e.tf, e.candle.start), Strip(IdempotencyKey(e));
      && id in after.dedupe
      && after.dedupe[id] == DedupeRow(e.eventType, Strip(CandleKey(e)), bar, log[i].subject, log[i].streamSequence)
      && ((forall j :: i < j < |log| ==> !WritesBar(cfg, log[j], e.symbol, e.tf, e.candle.start)) ==>
            && bar in after.candles
            && after.candles[bar].open == e.candle.open && after.candles[bar].high == e.candle.high
            && after.candles[bar].low == e.candle.low && after.candles[bar].close == e.candle.close
            && after.candles[bar].volume == (if volume.Some? then volume else e.candle.volume)
            && after.candles[bar].turnover == None
            && after.candles[bar].source == if e.eventType == Final then cfg.finalSource else cfg.reconcileSource)
  {
    hide Effects, Run, Fold, LastWrite, DecodeForStorage, BuildPayload, IdempotencyKey, CandleKey, WellFormed, Strip;
    var log := Effects(cfg, t.dedupe.Keys, ds);
    StorageRoundTrip(e, volume, ts, ft);
    assert Event(cfg, log[i]) == DecodeForStorage(BuildPayload(e, volume, ts), ft);
    assert log[i] in log;
    TablesAreFoldOfEffects(cfg, t, ds);
    forall j | i < j < |log|
      ensures Id(cfg, log[i]) != Id(cfg, log[j])
    {
      EffectsAreDistinct(cfg, t.dedupe.Keys, ds, i, j);
    }
    FoldHoldsDedupe(cfg, t, log, i);
    if forall j :: i < j < |log| ==> !WritesBar(cfg, log[j], e.symbol, e.tf, e.candle.start) {
      var bar := RowKey(e.symbol, e.tf, e.candle.start);
      forall j | i < j < |log|
        ensures RowKeyOf(Event(cfg, log[j]).value) != bar
      {
        assert log[j] in log && !WritesBar(cfg, log[j], e.symbol, e.tf, e.candle.start);
      }
      LastWriteAt(cfg, log, i, bar);
      RowIsLastWrite(cfg, t, ds, bar);
    }
  }

  /**
    A reconcile does not always win over a final: the row shows the reconcile source exactly when the
    last effective delivery for the bar was the reconcile, so a delayed final overwrites it.
   */
  lemma ReconcileWinsOnlyIfLast(cfg: Config, t: Tables, ds: seq<Delivery>, key: RowKey)
    requires cfg.finalSource != cfg.reconcileSource && key !in t.candles
    ensures var log := Effects(cfg, t.dedupe.Keys, ds);
            var candles := Run(cfg, t, ds).candles;
      key in candles && candles[key].source == cfg.reconcileSource
      <==> LastWrite(cfg, log, key).Some? && Event(cfg, LastWrite(cfg, log, key).value).value.eventType == Reconcile
  {
    RowIsLastWrite(cfg, t, ds, key);
  }

  function LateBar(exchange: string, t: EventType): LiveEvent
    requires t != Partial
  {
    LiveEvent(t, exchange, "BTCUSDT", 15, Candle(0, 0, 1.0, 1.0, 1.0, 1.0, true, None), true, "", None, None, 0, None)
  }

  function Delivered(e: LiveEvent): Delivery {
    Delivery(Some(BuildPayload(e, None, 0)), "", None, 1, NoFault, AckArrives)
  }

  lemma LateBarFits(exchange: string, t: EventType)
    requires exchange in {"bybit", "okx"} && t != Partial
    ensures var e := LateBar(exchange, t);
      && WellFormed(e) && !IsSpace(e.exchange[0])
      && |CandleKey(e)| <= 18 && |IdempotencyKey(e)| <= 28
  {
    hide CandleKey, IdempotencyKey;
    assert Lower("bybit") == "bybit" && Lower("okx") == "okx" && Upper("BTCUSDT") == "BTCUSDT";
    LateBarKeys(exchange, t);
  }

  lemma LateBarKeys(exchange: string, t: EventType)
    requires t != Partial
    ensures |CandleKey(LateBar(exchange, t))| == |exchange| + 13
    ensures |IdempotencyKey(LateBar(exchange, t))| <= |exchange| + 23
  {
    assert Str(15) == "15" && Str(0) == "0" by {
      assert Dec(15) == "15" && Dec(0) == "0";
    }
    hide Str, Dec;
  }

  lemma LateBarIsStored(cfg: Config, exchange: string, t: EventType, ft: FloatText)
    requires exchange in {"bybit", "okx"} && t != Partial && cfg.decode == Standard("", "", "", "", true, ft).decode
    ensures var e := Event(cfg, Delivered(LateBar(exchange, t)));
      && e.Some? && e.value.eventType == t
      && RowKeyOf(e.value) == RowKey("BTCUSDT", 15, 0) && e.value.eventId == IdempotencyKey(LateBar(exchange, t))
  {
    var e := LateBar(exchange, t);
    LateBarFits(exchange, t);
    KeyEnds(e);
    hide LateBar, IsSpace, WellFormed, DecodeForStorage, BuildPayload, CandleKey, IdempotencyKey;
    StorageRoundTrip(e, None, 0, ft);
    assert Event(cfg, Delivered(e)) == DecodeForStorage(BuildPayload(e, None, 0), ft);
  }

  /** A reconcile, then the delayed final of its bar: the row shows the final. */
  lemma DelayedFinalOverwrites(ft: FloatText)
    ensures var cfg := Standard("final", "reconcile", "", "", true, ft);
      var t := Run(cfg, Tables(map[], map[]),
        [Delivered(LateBar("bybit", Reconcile)), Delivered(LateBar("bybit", Final))]);
      var key := RowKey("BTCUSDT", 15, 0);
      key in t.candles && t.candles[key].source == "final"
  {
    hide IdempotencyKey, BuildPayload, DecodeForStorage, Run;
    var cfg := Standard("final", "reconcile", "", "", true, ft);
    LateBarIsStored(cfg, "bybit", Reconcile, ft);
    LateBarIsStored(cfg, "bybit", Final, ft);
    IdsDifferByType(LateBar("bybit", Reconcile), LateBar("bybit", Final));
    KeysAreText(LateBar("bybit", Reconcile));
    KeysAreText(LateBar("bybit", Final));
    LastOfTwoWins(cfg, Delivered(LateBar("bybit", Reconcile)), Delivered(LateBar("bybit", Final)));
  }

  lemma LastOfTwoWins(cfg: Config, a: Delivery, b: Delivery)
    requires a.fault == NoFault && b.fault == NoFault && Event(cfg, a).Some? && Event(cfg, b).Some?
    requires Id(cfg, a) != Id(cfg, b) && cfg.failBeforeCommit !in {Id(cfg, a), Id(cfg, b)}
    ensures var t, e := Run(cfg, Tables(map[], map[]), [a, b]), Event(cfg, b).value;
      RowKeyOf(e) in t.candles && t.candles[RowKeyOf(e)] == CandleRowOf(cfg, e)
  {
    hide Event, RowKeyOf, CandleRowOf, DedupeRowOf;
    var once := HandleTables(cfg, Tables(map[], map[]), a);
    assert once.dedupe.Keys == {Id(cfg, a)};
    assert [a, b][1..] == [b] && [b][1..] == [];
    assert Run(cfg, Tables(map[], map[]), [a, b]) == Run(cfg, once, [b]) == HandleTables(cfg, once, b);
  }

  lemma KeysAreText(e: LiveEvent)
    ensures IdempotencyKey(e) != ""
  {
  }

  lemma IdsDifferByType(a: LiveEvent, b: LiveEvent)
    requires a.eventType != b.eventType
    ensures IdempotencyKey(a) != IdempotencyKey(b)
  {
    if IdempotencyKey(a) == IdempotencyKey(b) {
      WithTypeInjective(CandleKey(a), a.eventType, CandleKey(b), b.eventType);
    }
  }

  // ----- How often a candle is written -----

  /** The id that an event gets when its payload brings no ids of its own, or the publisher's. */
  predicate DefaultId(e: DurableEvent) {
    e.eventId == WithType(e.candleKey, e.eventType)
  }

  lemma WithTypeTrims(key: string, t: EventType)
    requires Trim(key) && key != ""
    ensures Strip(WithType(key, t)) == WithType(key, t)
  {
    var id := WithType(key, t);
    StripTrims(id);
    assert id[0] == key[0] && id[|id| - 1] == TypeName(t)[|TypeName(t)| - 1];
  }

  lemma IdsWithoutKeys(p: Payload, t: EventType, x: string, s: string, iv: int, c: Candle, ft: FloatText)
    requires !Truthy(p.eventId) && !Truthy(p.idempotencyKey)
    ensures var r := StorageIds(p, t, x, s, iv, c, ft); r.Some? ==> r.value.eventType == t && DefaultId(r.value)
  {
    var r := StorageIds(p, t, x, s, iv, c, ft);
    if r.Some? {
      var key := r.value.candleKey;
      StripTrims(Text(Or(Or(p.candleKey, JStr(CandleKeyOf(x, s, iv, r.value.barTimeMs))), JStr("")), ft));
      WithTypeTrims(key, t);
    }
  }

  /** A payload without ids of its own gets the default id. */
  lemma DefaultIdFromPayload(p: Payload, ft: FloatText)
    requires !Truthy(p.eventId) && !Truthy(p.idempotencyKey)
    ensures DecodeForStorage(p, ft).Some? ==> DefaultId(DecodeForStorage(p, ft).value)
  {
    DecodeReachesIds(p, ft);
    forall t: EventType, x, s, iv, c: Candle
      ensures var r := StorageIds(p, t, x, s, iv, c, ft); r.Some? ==> DefaultId(r.value)
    {
      IdsWithoutKeys(p, t, x, s, iv, c, ft);
    }
  }

  lemma DecodeReachesIds(p: Payload, ft: FloatText)
    ensures var r := DecodeForStorage(p, ft);
      r.Some? ==> exists t: EventType, x, s, iv, c: Candle :: t != Partial && r == StorageIds(p, t, x, s, iv, c, ft)
  {
  }

  /** Only white space before the exchange name can be stripped from a key, so its type stays at the end. */
  lemma StripOfIdempotencyKey(e: LiveEvent)
    ensures Strip(IdempotencyKey(e)) == WithType(Strip(CandleKey(e)), e.eventType)
  {
    hide Str, Strip;
    var key, suffix, bar := CandleKey(e), ":" + TypeName(e.eventType), Str(e.candle.start);
    assert !IsSpace(key[|key| - 1]) by {
      assert key[|key| - 1] == bar[|bar| - 1] && bar[|bar| - 1] in bar;
    }
    hide CandleKey;
    assert IdempotencyKey(e) == key + suffix;
    assert suffix[|suffix| - 1] == TypeName(e.eventType)[|TypeName(e.eventType)| - 1];
    StripOfConcat(key, suffix);
    assert Strip(key) + suffix == WithType(Strip(key), e.eventType);
  }

  /** So does a payload from the publisher. */
  lemma DefaultIdFromPublisher(e: LiveEvent, volume: Option<real>, ts: int, ft: FloatText)
    requires WellFormed(e)
    ensures var r := DecodeForStorage(BuildPayload(e, volume, ts), ft); r.Some? ==> DefaultId(r.value)
  {
    hide DecodeForStorage, BuildPayload, IdempotencyKey, CandleKey;
    StorageRoundTrip(e, volume, ts, ft);
    StripOfIdempotencyKey(e);
  }

  /** The worker never stores a partial. */
  lemma StandardIsCritical(p: Payload, ft: FloatText)
    ensures var r := DecodeForStorage(p, ft); r.Some? ==> r.value.eventType != Partial
  {
    DecodeReachesIds(p, ft);
  }

  /** With default ids, two writes for one candle are of different type, so there are at most two. */
  lemma OneFinalOneReconcile(cfg: Config, seen: set<string>, ds: seq<Delivery>, i: nat, j: nat)
    requires forall d :: d in ds && Event(cfg, d).Some? ==>
      DefaultId(Event(cfg, d).value) && Event(cfg, d).value.eventType != Partial
    requires i < j < |Effects(cfg, seen, ds)|
    ensures var log := Effects(cfg, seen, ds);
            var a, b := Event(cfg, log[i]).value, Event(cfg, log[j]).value;
      a.candleKey == b.candleKey ==> a.eventType != b.eventType && a.eventType != Partial && b.eventType != Partial
  {
    EffectsAreDistinct(cfg, seen, ds, i, j);
    EffectsComeFromRun(cfg, seen, ds);
    var log := Effects(cfg, seen, ds);
    assert log[i] in log && log[j] in log;
  }

  lemma AtMostTwoWrites(cfg: Config, seen: set<string>, ds: seq<Delivery>, i: nat, j: nat, k: nat)
    requires forall d :: d in ds && Event(cfg, d).Some? ==>
      DefaultId(Event(cfg, d).value) && Event(cfg, d).value.eventType != Partial
    requires i < j < k < |Effects(cfg, seen, ds)|
    ensures var log := Effects(cfg, seen, ds);
      !(Event(cfg, log[i]).value.candleKey == Event(cfg, log[j]).value.candleKey == Event(cfg, log[k]).value.candleKey)
  {
    OneFinalOneReconcile(cfg, seen, ds, i, j);
    OneFinalOneReconcile(cfg, seen, ds, i, k);
    OneFinalOneReconcile(cfg, seen, ds, j, k);
  }

  // ----- The worker's own decoder -----

  /** The body was built by the publisher from an event. */
  ghost predicate Published(d: Delivery) {
    exists e: LiveEvent, volume, ts :: WellFormed(e) && d.body == Some(BuildPayload(e, volume, ts))
  }

  /** The body brings no id of its own. */
  predicate WithoutIds(d: Delivery) {
    d.body.Some? && !Truthy(d.body.value.eventId) && !Truthy(d.body.value.idempotencyKey)
  }

  lemma StandardDefaults(cfg: Config, d: Delivery, ft: FloatText)
    requires cfg.decode == Standard("", "", "", "", true, ft).decode
    requires d.body.None? || Published(d) || WithoutIds(d)
    ensures Event(cfg, d).Some? ==> DefaultId(Event(cfg, d).value) && Event(cfg, d).value.eventType != Partial
  {
    hide DecodeForStorage, BuildPayload, DefaultId, Truthy, WellFormed;
    if d.body.Some? {
      var p := d.body.value;
      assert Event(cfg, d) == DecodeForStorage(p, ft);
      StandardIsCritical(p, ft);
      if Published(d) {
        var e: LiveEvent, volume, ts :| WellFormed(e) && d.body == Some(BuildPayload(e, volume, ts));
        DefaultIdFromPublisher(e, volume, ts, ft);
      } else {
        DefaultIdFromPayload(p, ft);
      }
    }
  }

  /**
    With the worker's own decoder: over every run of deliveries whose bodies the publisher built or that
    bring no ids of their own, each candle is committed at most twice, once as a final, once as a reconcile.
   */
  lemma EachCandleAtMostTwice(cfg: Config, seen: set<string>, ds: seq<Delivery>, ft: FloatText)
    requires cfg.decode == Standard("", "", "", "", true, ft).decode
    requires forall d :: d in ds ==> d.body.None? || Published(d) || WithoutIds(d)
    ensures var log := Effects(cfg, seen, ds);
      && (forall i, j :: 0 <= i < j < |log| && SameCandle(cfg, log[i], log[j]) ==>
            Event(cfg, log[i]).value.eventType != Event(cfg, log[j]).value.eventType)
      && (forall i, j, k :: 0 <= i < j < k < |log| ==>
            !(SameCandle(cfg, log[i], log[j]) && SameCandle(cfg, log[j], log[k])))
  {
    hide Effects, Standard, Published, WithoutIds, DefaultId, Event;
    forall d | d in ds && Event(cfg, d).Some?
      ensures DefaultId(Event(cfg, d).value) && Event(cfg, d).value.eventType != Partial
    {
      StandardDefaults(cfg, d, ft);
    }
    var log := Effects(cfg, seen, ds);
    forall i, j | 0 <= i < j < |log| && SameCandle(cfg, log[i], log[j])
      ensures Event(cfg, log[i]).value.eventType != Event(cfg, log[j]).value.eventType
    {
      OneFinalOneReconcile(cfg, seen, ds, i, j);
    }
    forall i, j, k | 0 <= i < j < k < |log|
      ensures !(SameCandle(cfg, log[i], log[j]) && SameCandle(cfg, log[j], log[k]))
    {
      AtMostTwoWrites(cfg, seen, ds, i, j, k);
    }
  }

  predicate SameRow(cfg: Config, a: Delivery, b: Delivery) {
    Event(cfg, a).Some? && Event(cfg, b).Some? && RowKeyOf(Event(cfg, a).value) == RowKeyOf(Event(cfg, b).value)
  }

  predicate SameExchange(a: Delivery, b: Delivery) {
    a.body.Some? && b.body.Some? && a.body.value.exchange == b.body.value.exchange
  }

  /** Rows name no exchange; with it, they name the candle. */
  lemma RowAndExchangeNameCandle(cfg: Config, a: Delivery, b: Delivery, ft: FloatText)
    requires cfg.decode == Standard("", "", "", "", true, ft).decode
    requires (a.body.None? || Published(a)) && (b.body.None? || Published(b)) && SameRow(cfg, a, b)
      && SameExchange(a, b)
    ensures SameCandle(cfg, a, b)
  {
    hide DecodeForStorage, BuildPayload, CandleKeyOf, WellFormed, IdempotencyKey;
    var x, v, n := PublishedIsRead(cfg, a, ft);
    var y, w, m := PublishedIsRead(cfg, b, ft);
    PayloadNamesExchange(x, v, n);
    PayloadNamesExchange(y, w, m);
  }

  lemma PayloadNamesExchange(e: LiveEvent, volume: Option<real>, ts: int)
    ensures BuildPayload(e, volume, ts).exchange == JStr(e.exchange)
  {
  }

  lemma PublishedIsRead(cfg: Config, d: Delivery, ft: FloatText)
    returns (e: LiveEvent, volume: Option<real>, ts: int)
    requires cfg.decode == Standard("", "", "", "", true, ft).decode && Published(d) && Event(cfg, d).Some?
    ensures d.body == Some(BuildPayload(e, volume, ts))
    ensures Carries(Event(cfg, d).value, e, volume) && Event(cfg, d).value.candleKey == Strip(CandleKey(e))
  {
    hide DecodeForStorage, BuildPayload, CandleKey, WellFormed, IdempotencyKey, Carries;
    e, volume, ts :| WellFormed(e) && d.body == Some(BuildPayload(e, volume, ts));
    StorageRoundTrip(e, volume, ts, ft);
    assert Event(cfg, d) == DecodeForStorage(BuildPayload(e, volume, ts), ft);
  }

  /**
    The bound for the row itself: among published events no row is committed three times from one exchange.
    FourWritesOfOneRow shows that two exchanges do share a row.
   */
  lemma EachRowAtMostTwice(cfg: Config, seen: set<string>, ds: seq<Delivery>, ft: FloatText)
    requires cfg.decode == Standard("", "", "", "", true, ft).decode
    requires forall d :: d in ds ==> d.body.None? || Published(d)
    ensures var log := Effects(cfg, seen, ds);
      forall i, j, k :: 0 <= i < j < k < |log| ==>
        !(SameRow(cfg, log[i], log[j]) && SameRow(cfg, log[j], log[k])
          && SameExchange(log[i], log[j]) && SameExchange(log[j], log[k]))
  {
    hide Effects, Standard, Published, SameRow, SameCandle, SameExchange;
    EachCandleAtMostTwice(cfg, seen, ds, ft);
    EffectsComeFromRun(cfg, seen, ds);
    var log := Effects(cfg, seen, ds);
    forall i, j | 0 <= i < j < |log| && SameRow(cfg, log[i], log[j]) && SameExchange(log[i], log[j])
      ensures SameCandle(cfg, log[i], log[j])
    {
      assert log[i] in log && log[j] in log;
      RowAndExchangeNameCandle(cfg, log[i], log[j], ft);
    }
  }

  /** Final and reconcile of one bar from two exchanges: all four are committed, to one row. */
  lemma FourWritesOfOneRow(ft: FloatText)
    ensures var cfg := Standard("final", "reconcile", "", "", true, ft);
      var ds := [Delivered(LateBar("bybit", Final)), Delivered(LateBar("bybit", Reconcile)),
                 Delivered(LateBar("okx", Final)), Delivered(LateBar("okx", Reconcile))];
      && Effects(cfg, {}, ds) == ds
      && forall i, j :: 0 <= i < j < 4 ==> SameRow(cfg, ds[i], ds[j])
  {
    hide Effects, DecodeForStorage, BuildPayload, IdempotencyKey, CandleKey;
    var cfg := Standard("final", "reconcile", "", "", true, ft);
    var a, b := LateBar("bybit", Final), LateBar("bybit", Reconcile);
    var c, d := LateBar("okx", Final), LateBar("okx", Reconcile);
    LateBarIsStored(cfg, "bybit", Final, ft);
    LateBarIsStored(cfg, "bybit", Reconcile, ft);
    LateBarIsStored(cfg, "okx", Final, ft);
    LateBarIsStored(cfg, "okx", Reconcile, ft);
    IdsDifferByType(a, b);
    IdsDifferByType(a, d);
    IdsDifferByType(b, c);
    IdsDifferByType(c, d);
    IdsDifferByExchange(a, c);
    IdsDifferByExchange(b, d);
    KeysAreText(a);
    KeysAreText(b);
    KeysAreText(c);
    KeysAreText(d);
    FourEffects(cfg, Delivered(a), Delivered(b), Delivered(c), Delivered(d));
  }

  lemma IdsDifferByExchange(a: LiveEvent, b: LiveEvent)
    requires a.exchange == "bybit" && b.exchange == "okx"
    ensures IdempotencyKey(a) != IdempotencyKey(b)
  {
    assert IdempotencyKey(a)[0] == 'b' && IdempotencyKey(b)[0] == 'o';
  }

  lemma FourEffects(cfg: Config, a: Delivery, b: Delivery, c: Delivery, d: Delivery)
    requires cfg.failBeforeCommit == ""
    requires forall x :: x in [a, b, c, d] ==> x.fault == NoFault && Event(cfg, x).Some? && Id(cfg, x) != ""
    requires Id(cfg, a) !in {Id(cfg, b), Id(cfg, c), Id(cfg, d)} && Id(cfg, b) !in {Id(cfg, c), Id(cfg, d)}
    requires Id(cfg, c) != Id(cfg, d)
    ensures Effects(cfg, {}, [a, b, c, d]) == [a, b, c, d]
  {
    hide Effects, Event, Id;
    var seen: set<string> := {};
    var seenA := seen + {Id(cfg, a)};
    var seenB := seenA + {Id(cfg, b)};
    FirstEffect(cfg, seen, a, [b, c, d]);
    FirstEffect(cfg, seenA, b, [c, d]);
    FirstEffect(cfg, seenB, c, [d]);
    FirstEffect(cfg, seenB + {Id(cfg, c)}, d, []);
    assert [a, b, c, d] == [a] + [b, c, d] && [b, c, d] == [b] + [c, d] && [c, d] == [c] + [d] && [d] == [d] + [];
  }

  lemma FirstEffect(cfg: Config, seen: set<string>, d: Delivery, ds: seq<Delivery>)
    requires d.fault == NoFault && Event(cfg, d).Some? && Id(cfg, d) !in seen && cfg.failBeforeCommit != Id(cfg, d)
    ensures Effects(cfg, seen, [d] + ds) == [d] + Effects(cfg, seen + {Id(cfg, d)}, ds)
    ensures Effects(cfg, seen + {Id(cfg, d)}, []) == []
  {
    hide Event;
    assert ([d] + ds)[0] == d && ([d] + ds)[1..] == ds;
  }

  predicate SameCandle(cfg: Config, a: Delivery, b: Delivery) {
    Event(cfg, a).Some? && Event(cfg, b).Some? && Event(cfg, a).value.candleKey == Event(cfg, b).value.candleKey
  }

  lemma {:induction false} EffectsComeFromRun(cfg: Config, seen: set<string>, ds: seq<Delivery>)
    ensures forall d :: d in Effects(cfg, seen, ds) ==> d in ds
    decreases |ds|
  {
    if ds != [] {
      EffectsComeFromRun(cfg, seen, ds[1..]);
      if Event(cfg, ds[0]).Some? {
        EffectsComeFromRun(cfg, seen + {Id(cfg, ds[0])}, ds[1..]);
      }
    }
  }

  // ----- The worker's counters -----

  /** Deliveries that end without a signal, because the worker was shut down in mid-message. */
  function Silenced(cfg: Config, t: Tables, ds: seq<Delivery>): nat
    decreases |ds|
  {
    if ds == [] then 0
    else
      (if SignalFor(cfg, t, ds[0]) == Silent then 1 else 0)
      + Silenced(cfg, HandleTables(cfg, t, ds[0]), ds[1..])
  }

  /** Relations between the counters: n is the number of silenced deliveries, w of commits. */
  predicate Balanced(s: Stats, n: nat, w: nat) {
    && s.seen == s.ack + s.nak + s.term + n
    && s.ack <= s.duplicate + s.dbWrite <= s.ack + s.nak + n
    && s.dbWrite <= w
    && s.term <= s.schemaDrop <= s.term + s.nak
    && s.redelivery <= s.seen
  }

  lemma StepBalances(cfg: Config, t: Tables, s: Stats, d: Delivery, n: nat, w: nat)
    requires Balanced(s, n, w)
    ensures Balanced(
      HandleStats(cfg, t, s, d),
      n + if SignalFor(cfg, t, d) == Silent then 1 else 0,
      w + |Effects(cfg, t.dedupe.Keys, [d])|)
  {
  }

  /** Every message is accounted for once, and no write is reported that was not committed. */
  lemma {:induction false} CountersBalance(cfg: Config, t: Tables, s: Stats, ds: seq<Delivery>, n: nat, w: nat)
    requires Balanced(s, n, w)
    ensures Balanced(RunStats(cfg, t, s, ds), n + Silenced(cfg, t, ds), w + |Effects(cfg, t.dedupe.Keys, ds)|)
    decreases |ds|
  {
    if ds != [] {
      var t', s' := HandleTables(cfg, t, ds[0]), HandleStats(cfg, t, s, ds[0]);
      var n' := n + if SignalFor(cfg, t, ds[0]) == Silent then 1 else 0;
      var w' := w + |Effects(cfg, t.dedupe.Keys, [ds[0]])|;
      StepBalances(cfg, t, s, ds[0], n, w);
      CountersBalance(cfg, t', s', ds[1..], n', w');
      EffectsSplit(cfg, t.dedupe.Keys, [ds[0]], ds[1..]);
      assert ds == [ds[0]] + ds[1..];
      DedupeIsTheLog(cfg, t, [ds[0]]);
      assert Run(cfg, t, [ds[0]]) == t';
    }
  }

  lemma {:induction false} RunStatsSnoc(cfg: Config, t: Tables, s: Stats, ds: seq<Delivery>, d: Delivery)
    ensures RunStats(cfg, t, s, ds + [d]) == HandleStats(cfg, Run(cfg, t, ds), RunStats(cfg, t, s, ds), d)
    decreases |ds|
  {
    hide HandleStats, HandleTables;
    if ds == [] {
      assert ds + [d] == [d] && [d][1..] == [];
    } else {
      assert (ds + [d])[1..] == ds[1..] + [d];
      RunStatsSnoc(cfg, HandleTables(cfg, t, ds[0]), HandleStats(cfg, t, s, ds[0]), ds[1..], d);
    }
  }

  const NO_COUNTS := Stats(0, 0, 0, 0, 0, 0, 0, 0)

  function One(b: bool): nat {
    if b then 1 else 0
  }

  /**
    What one more delivery counts after any run from empty tables: a write exactly when the database
    committed it and said so, a duplicate exactly when an earlier delivery had stored its id.
   */
  lemma NextCounts(cfg: Config, ds: seq<Delivery>, d: Delivery)
    ensures var none := Tables(map[], map[]);
      var s, valid := RunStats(cfg, none, NO_COUNTS, ds), Event(cfg, d).Some?;
      var signal := SignalFor(cfg, Run(cfg, none, ds), d);
      var earlier := valid && StoredBy(cfg, ds, Id(cfg, d));
      var told := valid && d.ending != CancelledInWrite && d.fault == NoFault;
      && RunStats(cfg, none, NO_COUNTS, ds + [d]) == Stats(
        s.seen + 1, s.ack + One(signal == Ack), s.nak + One(signal == Nak), s.term + One(signal == Term),
        s.schemaDrop + One(!valid),
        s.dbWrite + One(told && !earlier && Id(cfg, d) !in {cfg.failBeforeCommit, cfg.failAfterCommit}),
        s.duplicate + One(told && earlier), s.redelivery + One(d.numDelivered > 1))
      && (!valid ==> signal == if cfg.termInvalid then Term else Nak)
  {
    hide Run, RunStats, Event;
    var none := Tables(map[], map[]);
    RunStatsSnoc(cfg, none, NO_COUNTS, ds, d);
    if Event(cfg, d).Some? {
      StoredIff(cfg, none, ds, Id(cfg, d));
    }
  }
}
