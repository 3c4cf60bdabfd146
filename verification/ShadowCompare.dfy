/**
  The shadow compare store (ChartIngestShadowCompareStore in chart_ingest_shadow.py).

  Two transports report the same candles.  The store pairs their events by idempotency key, remembers
  unpaired events in bounded insertion-ordered maps, and counts what it sees.  The theorems relate the
  counters and the maps after every sequence of reports.
 */
module ShadowCompare {
  import opened Options
  import opened PyText
  import opened ChartEvents

  // ----- A bounded OrderedDict -----

  datatype Ordered<V> = Ordered(order: seq<string>, at: map<string, V>)

  function Elems(s: seq<string>): set<string> {
    if s == [] then {} else {s[0]} + Elems(s[1..])
  }

  predicate Distinct(s: seq<string>) {
    s == [] || (s[0] !in Elems(s[1..]) && Distinct(s[1..]))
  }

  /** The order lists exactly the keys, each once. */
  predicate Sound<V>(m: Ordered<V>) {
    Distinct(m.order) && Elems(m.order) == m.at.Keys
  }

  function Empty<V>(): Ordered<V> {
    Ordered([], map[])
  }

  function Without(s: seq<string>, k: string): (r: seq<string>)
    ensures Elems(r) == Elems(s) - {k}
    ensures Distinct(s) ==> Distinct(r)
  {
    if s == [] then []
    else if s[0] == k then Without(s[1..], k)
    else
      var r := [s[0]] + Without(s[1..], k);
      assert r[1..] == Without(s[1..], k);
      r
  }

  lemma {:induction false} Snoc(s: seq<string>, k: string)
    ensures Elems(s + [k]) == Elems(s) + {k}
    ensures Distinct(s) && k !in Elems(s) ==> Distinct(s + [k])
  {
    if s == [] {
      assert s + [k] == [k];
      assert [k][1..] == [];
    } else {
      Snoc(s[1..], k);
      assert (s + [k])[1..] == s[1..] + [k];
    }
  }

  /** popitem(last=False) until at most limit entries are left. */
  function Evict<V>(m: Ordered<V>, limit: nat): (r: Ordered<V>)
    ensures Sound(m) ==> Sound(r)
    ensures |r.order| == if |m.order| <= limit then |m.order| else limit
    ensures |m.order| <= limit ==> r == m
    ensures limit > 0 && m.order != [] ==> r.order != [] && r.order[|r.order| - 1] == m.order[|m.order| - 1]
    ensures r.at.Keys <= m.at.Keys && forall k :: k in r.at ==> r.at[k] == m.at[k]
    decreases |m.order|
  {
    if |m.order| <= limit then m else Evict(Ordered(m.order[1..], m.at - {m.order[0]}), limit)
  }

  /** store[key] = value; move_to_end(key). */
  function Put<V>(m: Ordered<V>, k: string, v: V): (r: Ordered<V>)
    ensures Sound(m) ==> Sound(r)
    ensures r.order != [] && r.order[|r.order| - 1] == k
    ensures r.at == m.at[k := v]
  {
    Snoc(Without(m.order, k), k);
    Ordered(Without(m.order, k) + [k], m.at[k := v])
  }

  lemma {:induction false} LastIsElement(s: seq<string>)
    ensures s != [] ==> s[|s| - 1] in Elems(s)
  {
    if |s| > 1 {
      LastIsElement(s[1..]);
    }
  }

  lemma {:induction false} DistinctCount(s: seq<string>)
    requires Distinct(s)
    ensures |s| == |Elems(s)|
  {
    if s != [] {
      DistinctCount(s[1..]);
    }
  }

  lemma SoundCount<V>(m: Ordered<V>)
    requires Sound(m)
    ensures |m.order| == |m.at|
  {
    DistinctCount(m.order);
    assert |m.at| == |m.at.Keys|;
  }

  lemma SubsetCount(a: set<string>, b: set<string>)
    requires a <= b
    ensures |a| <= |b|
  {
    assert b == a + (b - a);
    assert |a + (b - a)| == |a| + |b - a|;
  }

  /** store[key] = value; move_to_end(key); evict the oldest entries over the limit. */
  function Remember<V>(m: Ordered<V>, k: string, v: V, limit: nat): (r: Ordered<V>)
    requires limit > 0
    ensures Sound(m) ==> Sound(r) && |r.at| <= limit && k in r.at && r.at[k] == v
    ensures Sound(m) && |m.at.Keys + {k}| <= limit ==> r.at.Keys == m.at.Keys + {k}
    ensures r.at.Keys <= m.at.Keys + {k}
    ensures forall x :: x in r.at && x != k ==> r.at[x] == m.at[x]
  {
    RememberFacts(m, k, v, limit);
    Evict(Put(m, k, v), limit)
  }

  lemma RememberFacts<V>(m: Ordered<V>, k: string, v: V, limit: nat)
    requires limit > 0
    ensures var r := Evict(Put(m, k, v), limit);
      && k in Elems(r.order) && |r.order| <= limit
      && (Sound(m) ==> |r.at| <= limit)
      && (Sound(m) && |m.at.Keys + {k}| <= limit ==> r == Put(m, k, v))
  {
    hide Put, Evict, Sound;
    var p := Put(m, k, v);
    LastIsElement(Evict(p, limit).order);
    if Sound(m) {
      SoundCount(Evict(p, limit));
      if |m.at.Keys + {k}| <= limit {
        PutFits(m, k, v, limit);
      }
    }
  }

  lemma PutFits<V>(m: Ordered<V>, k: string, v: V, limit: nat)
    requires Sound(m) && |m.at.Keys + {k}| <= limit
    ensures Evict(Put(m, k, v), limit) == Put(m, k, v)
  {
    hide Put, Evict, Sound;
    var p := Put(m, k, v);
    SoundCount(p);
    assert p.at.Keys == m.at.Keys + {k};
  }

  function Pop<V>(m: Ordered<V>, k: string): (r: Ordered<V>)
    ensures Sound(m) ==> Sound(r)
    ensures r.at.Keys == m.at.Keys - {k} && |r.at| <= |m.at|
  {
    var r := Ordered(Without(m.order, k), m.at - {k});
    assert |r.at| <= |m.at| by {
      SubsetCount(r.at.Keys, m.at.Keys);
      assert |m.at| == |m.at.Keys| && |r.at| == |r.at.Keys|;
    }
    r
  }

  // ----- Observations and settings -----

  datatype Transport = BotHttp | IngestShadow | NatsShadow

  /** One observed event.  Its two keys are properties of the event; see Built. */
  datatype Observed = Observed(
    transport: Transport, event: LiveEvent, key: string, candleKey: string,
    receivedAtMs: int, volume: Option<real>)

  function Observe(t: Transport, e: LiveEvent, receivedAtMs: int, volume: Option<real>): Observed {
    Observed(t, e, IdempotencyKey(e), CandleKey(e), receivedAtMs, volume)
  }

  predicate Built(o: Observed) {
    WellFormed(o.event) && o == Observe(o.transport, o.event, o.receivedAtMs, o.volume)
  }

  datatype Settings = Settings(maxEvents: int, priceTolerance: real, volumeTolerance: real, lagWarnMs: int)

  function Limit(cfg: Settings): (n: nat)
    ensures n > 0 && n >= cfg.maxEvents && (n == 1 || n == cfg.maxEvents)
  {
    if cfg.maxEvents < 1 then 1 else cfg.maxEvents
  }

  // ----- Counters -----

  datatype Reason =
    | OhlcDiff | VolumeDiff | VolumeMissing | PartialOhlcDrift | PartialVolumeDrift | TimingLag
    | MissingBotHttp | MissingShadow | EventTypeDiff | FinalFlagDiff | DuplicateFinal

  type ReasonCounts = map<Reason, nat>

  datatype Verdicts = Verdicts(matched: nat, mismatched: nat, finalMatched: nat, finalMismatched: nat)
  datatype VolumeCounts = VolumeCounts(comparable: nat, missing: nat, missingBot: nat, missingShadow: nat,
    mismatch: nat)
  datatype DriftCounts = DriftCounts(total: nat, ohlc: nat, volume: nat)
  datatype LagCounts = LagCounts(samples: nat, total: nat, min: nat, max: nat, late: nat)

  datatype Stats = Stats(
    shadowSeen: nat, botSeen: nat, missingBot: nat, missingShadow: nat,
    duplicateFinal: nat, latePartial: nat, compared: nat,
    verdicts: Verdicts, volume: VolumeCounts, drift: DriftCounts, lag: LagCounts, reasons: ReasonCounts)

  function CountOf(m: ReasonCounts, r: Reason): nat {
    if r in m then m[r] else 0
  }

  function One(b: bool): nat {
    if b then 1 else 0
  }

  function Bump(m: ReasonCounts, rs: set<Reason>): (t: ReasonCounts)
    ensures forall q :: CountOf(t, q) == CountOf(m, q) + One(q in rs)
  {
    map r | r in m.Keys + rs :: CountOf(m, r) + One(r in rs)
  }

  // ----- Comparing one pair -----

  datatype Field = Symbol | Interval | BarTime | Type | IsFinal | Confirm | Open | High | Low | Close | Volume

  datatype Comparison = Comparison(
    mismatches: set<Field>, reasons: set<Reason>, drift: set<Field>, driftReasons: set<Reason>)

  function Abs(x: real): real {
    if x < 0.0 then -x else x
  }

  function AbsInt(x: int): nat {
    if x < 0 then -x else x
  }

  function AtLeastZero(x: real): real {
    if x < 0.0 then 0.0 else x
  }

  function PriceOf(c: Candle, f: Field): real {
    match f
    case Open => c.open
    case High => c.high
    case Low => c.low
    case _ => c.close
  }

  predicate PartialPair(bot: Observed, shadow: Observed) {
    bot.event.eventType == Partial && shadow.event.eventType == Partial
  }

  function IdentityMismatches(b: LiveEvent, s: LiveEvent): set<Field> {
    (if b.symbol != s.symbol then {Symbol} else {})
    + (if b.tf != s.tf then {Interval} else {})
    + (if b.candle.start != s.candle.start then {BarTime} else {})
    + (if b.eventType != s.eventType then {Type} else {})
    + (if b.isFinal != s.isFinal then {IsFinal} else {})
    + (if b.candle.confirm != s.candle.confirm then {Confirm} else {})
  }

  function IdentityReasons(b: LiveEvent, s: LiveEvent): set<Reason> {
    (if b.eventType != s.eventType then {EventTypeDiff} else {})
    + (if b.isFinal != s.isFinal || b.candle.confirm != s.candle.confirm then {FinalFlagDiff} else {})
  }

  function PriceDiffs(cfg: Settings, b: Candle, s: Candle): set<Field> {
    set f | f in {Open, High, Low, Close} && Abs(PriceOf(b, f) - PriceOf(s, f)) > AtLeastZero(cfg.priceTolerance)
  }

  predicate VolumeIsMissing(bot: Observed, shadow: Observed) {
    bot.volume.None? || shadow.volume.None?
  }

  predicate VolumesDiffer(cfg: Settings, bot: Observed, shadow: Observed) {
    !VolumeIsMissing(bot, shadow)
    && Abs(bot.volume.value - shadow.volume.value) > AtLeastZero(cfg.volumeTolerance)
  }

  /** The comparison of one pair: what mismatches, what merely drifts, and why. */
  function CompareFields(cfg: Settings, bot: Observed, shadow: Observed): Comparison {
    var prices := PriceDiffs(cfg, bot.event.candle, shadow.event.candle);
    var volume := if VolumesDiffer(cfg, bot, shadow) then {Volume} else {};
    var missing := if VolumeIsMissing(bot, shadow) then {VolumeMissing} else {};
    var identity := IdentityMismatches(bot.event, shadow.event);
    var reasons := IdentityReasons(bot.event, shadow.event) + missing;
    if PartialPair(bot, shadow) then
      Comparison(identity, reasons, prices + volume,
                 (if prices != {} then {PartialOhlcDrift} else {})
                 + (if volume != {} then {PartialVolumeDrift} else {}))
    else
      Comparison(identity + prices + volume,
                 reasons + (if prices != {} then {OhlcDiff} else {}) + (if volume != {} then {VolumeDiff} else {}),
                 {}, {})
  }

  function CountVolume(cfg: Settings, v: VolumeCounts, bot: Observed, shadow: Observed): VolumeCounts {
    if VolumeIsMissing(bot, shadow) then
      v.(missing := v.missing + 1,
         missingBot := v.missingBot + One(bot.volume.None?),
         missingShadow := v.missingShadow + One(shadow.volume.None?))
    else
      v.(comparable := v.comparable + 1,
         mismatch := v.mismatch + One(VolumesDiffer(cfg, bot, shadow) && !PartialPair(bot, shadow)))
  }

  function LagOf(bot: Observed, shadow: Observed): nat {
    AbsInt(shadow.receivedAtMs - bot.receivedAtMs)
  }

  predicate Late(cfg: Settings, lag: nat) {
    lag > if cfg.lagWarnMs < 0 then 0 else cfg.lagWarnMs
  }

  function LagReasons(cfg: Settings, lag: nat): set<Reason> {
    if Late(cfg, lag) then {TimingLag} else {}
  }

  function CountLag(cfg: Settings, l: LagCounts, lag: nat): LagCounts {
    LagCounts(
      l.samples + 1, l.total + lag,
      if l.samples == 0 || lag < l.min then lag else l.min,
      if lag > l.max then lag else l.max,
      l.late + One(Late(cfg, lag)))
  }

  function CountDrift(d: DriftCounts, c: Comparison): DriftCounts {
    if c.drift == {} then d
    else DriftCounts(
      d.total + 1, d.ohlc + One(PartialOhlcDrift in c.driftReasons),
      d.volume + One(PartialVolumeDrift in c.driftReasons))
  }

  function CountVerdict(v: Verdicts, c: Comparison, bot: Observed, shadow: Observed): Verdicts {
    if c.mismatches != {} then
      v.(mismatched := v.mismatched + 1,
         finalMismatched := v.finalMismatched + One(bot.event.isFinal || shadow.event.isFinal))
    else
      v.(matched := v.matched + 1,
         finalMatched := v.finalMatched + One(bot.event.isFinal && shadow.event.isFinal))
  }

  function BotOf(first: Observed, second: Observed): Observed {
    if first.transport == BotHttp then first else second
  }

  function ShadowOf(first: Observed, second: Observed): Observed {
    if first.transport == BotHttp then second else first
  }

  function CompareStats(cfg: Settings, s: Stats, bot: Observed, shadow: Observed): Stats {
    var c := CompareFields(cfg, bot, shadow);
    var lag := LagOf(bot, shadow);
    s.(compared := s.compared + 1,
       verdicts := CountVerdict(s.verdicts, c, bot, shadow),
       volume := CountVolume(cfg, s.volume, bot, shadow),
       drift := CountDrift(s.drift, c),
       lag := CountLag(cfg, s.lag, lag),
       reasons := Bump(Bump(s.reasons, c.driftReasons), c.reasons + LagReasons(cfg, lag)))
  }

  // ----- One report -----

  datatype Side = Bot | Shadow

  /** The two event memories and the two pending memories. */
  datatype Maps = Maps(
    bot: Ordered<Observed>, shadow: Ordered<Observed>,
    missingBot: Ordered<Observed>, missingShadow: Ordered<Observed>)

  type FinalMemory = map<Transport, Ordered<bool>>

  datatype Store = Store(maps: Maps, finalSeen: FinalMemory, stats: Stats)

  function Own(m: Maps, side: Side): Ordered<Observed> {
    if side == Bot then m.bot else m.shadow
  }

  function Other(m: Maps, side: Side): Ordered<Observed> {
    if side == Bot then m.shadow else m.bot
  }

  /** An event memory after a report: it changes only on the reporting side. */
  function EventsAfter(m: Ordered<Observed>, mine: bool, o: Observed, limit: nat): (r: Ordered<Observed>)
    requires limit > 0
    ensures Sound(m) ==> Sound(r)
    ensures Sound(m) && |m.at| <= limit ==> |r.at| <= limit
    ensures r.at.Keys <= m.at.Keys + {o.key}
    ensures !mine ==> r == m
    ensures forall k :: k in r.at ==>
      (k in m.at && r.at[k] == m.at[k]) || (mine && k == o.key && r.at[k] == o) || !Sound(m)
    ensures mine && Sound(m) && |m.at.Keys + {o.key}| <= limit ==> r.at.Keys == m.at.Keys + {o.key}
  {
    if mine then Remember(m, o.key, o, limit) else m
  }

  /** A pending memory after a report: the pair is popped, or the lone event is remembered. */
  function PendingAfter(p: Ordered<Observed>, paired: bool, mine: bool, o: Observed, limit: nat): (r: Ordered<Observed>)
    requires limit > 0
    ensures Sound(p) ==> Sound(r)
    ensures Sound(p) && |p.at| <= limit ==> |r.at| <= limit
    ensures r.at.Keys <= p.at.Keys + {o.key}
    ensures paired ==> r.at.Keys == p.at.Keys - {o.key}
    ensures !paired && !mine ==> r == p
    ensures !paired && mine && Sound(p) && |p.at.Keys + {o.key}| <= limit ==> r.at.Keys == p.at.Keys + {o.key}
  {
    if paired then Pop(p, o.key) else if mine then Remember(p, o.key, o, limit) else p
  }

  /** File the report; pair it off, or remember that its counterpart is missing. */
  function RecordMaps(m: Maps, side: Side, o: Observed, limit: nat): Maps
    requires limit > 0
  {
    var paired := o.key in Other(m, side).at;
    Maps(EventsAfter(m.bot, side == Bot, o, limit),
         EventsAfter(m.shadow, side == Shadow, o, limit),
         PendingAfter(m.missingBot, paired, o.transport != BotHttp, o, limit),
         PendingAfter(m.missingShadow, paired, o.transport == BotHttp, o, limit))
  }

  function FinalsOf(m: FinalMemory, t: Transport): Ordered<bool> {
    if t in m then m[t] else Empty()
  }

  function RecordFinals(m: FinalMemory, o: Observed, limit: nat): FinalMemory
    requires limit > 0
  {
    var finals := FinalsOf(m, o.transport);
    m[o.transport := if o.event.isFinal then Remember(finals, o.candleKey, true, limit) else finals]
  }

  function OrderingStats(s: Stats, finals: Ordered<bool>, o: Observed): Stats {
    if o.event.isFinal then
      if o.candleKey in finals.at
      then s.(duplicateFinal := s.duplicateFinal + 1, reasons := Bump(s.reasons, {DuplicateFinal}))
      else s
    else if o.event.eventType == Partial && o.candleKey in finals.at then s.(latePartial := s.latePartial + 1)
    else s
  }

  function MissingStats(s: Stats, missingBot: Ordered<Observed>, missingShadow: Ordered<Observed>, o: Observed): Stats {
    if o.transport != BotHttp then
      if o.key in missingBot.at then s
      else s.(missingBot := s.missingBot + 1, reasons := Bump(s.reasons, {MissingBotHttp}))
    else
      if o.key in missingShadow.at then s
      else s.(missingShadow := s.missingShadow + 1, reasons := Bump(s.reasons, {MissingShadow}))
  }

  function Seen(s: Stats, side: Side): Stats {
    if side == Bot then s.(botSeen := s.botSeen + 1) else s.(shadowSeen := s.shadowSeen + 1)
  }

  /** The counters after a report that has been counted as seen. */
  function RecordStats(cfg: Settings, seen: Stats, m: Maps, finalSeen: FinalMemory, side: Side, o: Observed): Stats {
    var s := OrderingStats(seen, FinalsOf(finalSeen, o.transport), o);
    var other := Other(m, side);
    if o.key in other.at
    then CompareStats(cfg, s, BotOf(other.at[o.key], o), ShadowOf(other.at[o.key], o))
    else MissingStats(s, m.missingBot, m.missingShadow, o)
  }

  function Record(cfg: Settings, st: Store, side: Side, o: Observed): Store {
    Store(RecordMaps(st.maps, side, o, Limit(cfg)),
          RecordFinals(st.finalSeen, o, Limit(cfg)),
          RecordStats(cfg, Seen(st.stats, side), st.maps, st.finalSeen, side, o))
  }

  function NoMaps(): Maps {
    Maps(Empty(), Empty(), Empty(), Empty())
  }

  function NoStats(): Stats {
    Stats(0, 0, 0, 0, 0, 0, 0, Verdicts(0, 0, 0, 0), VolumeCounts(0, 0, 0, 0, 0), DriftCounts(0, 0, 0),
          LagCounts(0, 0, 0, 0, 0), map[])
  }

  // ----- The store -----

  class CompareStore {
    const cfg: Settings
    var maps: Maps
    var finalSeen: FinalMemory
    var stats: Stats

    constructor (cfg: Settings)
      ensures this.cfg == cfg && View() == Store(NoMaps(), map[], NoStats())
    {
      this.cfg := cfg;
      maps, finalSeen, stats := NoMaps(), map[], NoStats();
    }

    function View(): Store
      reads this
    {
      Store(maps, finalSeen, stats)
    }

    method RecordBotHttpEvent(o: Observed)
      modifies this
      ensures View() == Record(cfg, old(View()), Bot, o)
    {
      hide RecordMaps, RecordFinals, RecordStats;
      stats := stats.(botSeen := stats.botSeen + 1);
      RecordEvent(o, Bot);
    }

    method RecordShadowEvent(o: Observed)
      modifies this
      ensures View() == Record(cfg, old(View()), Shadow, o)
    {
      hide RecordMaps, RecordFinals, RecordStats;
      stats := stats.(shadowSeen := stats.shadowSeen + 1);
      RecordEvent(o, Shadow);
    }

    method RecordEvent(o: Observed, side: Side)
      modifies this
      ensures maps == RecordMaps(old(maps), side, o, Limit(cfg))
      ensures finalSeen == RecordFinals(old(finalSeen), o, Limit(cfg))
      ensures stats == RecordStats(cfg, old(stats), old(maps), old(finalSeen), side, o)
    {
      hide Remember, Pop, CompareStats, OrderingStats, MissingStats, RecordFinals;
      DetectFinalOrdering(o);
      var own := RememberIn(Own(maps, side), o.key, o, Limit(cfg));
      maps := if side == Bot then maps.(bot := own) else maps.(shadow := own);
      var other := Other(maps, side);
      if o.key !in other.at {
        MarkMissingCounterpart(o);
        return;
      }
      maps := maps.(missingBot := Pop(maps.missingBot, o.key));
      maps := maps.(missingShadow := Pop(maps.missingShadow, o.key));
      Compare(other.at[o.key], o);
    }

    method DetectFinalOrdering(o: Observed)
      modifies this`stats, this`finalSeen
      ensures stats == OrderingStats(old(stats), FinalsOf(old(finalSeen), o.transport), o)
      ensures finalSeen == RecordFinals(old(finalSeen), o, Limit(cfg))
    {
      hide Remember, Bump;
      var finals := FinalsOf(finalSeen, o.transport);
      if o.event.isFinal {
        if o.candleKey in finals.at {
          stats := stats.(duplicateFinal := stats.duplicateFinal + 1, reasons := Bump(stats.reasons, {DuplicateFinal}));
        }
        finals := RememberIn(finals, o.candleKey, true, Limit(cfg));
      } else if o.event.eventType == Partial && o.candleKey in finals.at {
        stats := stats.(latePartial := stats.latePartial + 1);
      }
      finalSeen := finalSeen[o.transport := finals];
    }

    method MarkMissingCounterpart(o: Observed)
      modifies this`stats, this`maps
      ensures stats == MissingStats(old(stats), old(maps).missingBot, old(maps).missingShadow, o)
      ensures maps == if o.transport != BotHttp
        then old(maps).(missingBot := Remember(old(maps).missingBot, o.key, o, Limit(cfg)))
        else old(maps).(missingShadow := Remember(old(maps).missingShadow, o.key, o, Limit(cfg)))
    {
      if o.transport != BotHttp {
        if o.key !in maps.missingBot.at {
          stats := stats.(missingBot := stats.missingBot + 1, reasons := Bump(stats.reasons, {MissingBotHttp}));
        }
        var pending := RememberIn(maps.missingBot, o.key, o, Limit(cfg));
        maps := maps.(missingBot := pending);
      } else {
        if o.key !in maps.missingShadow.at {
          stats := stats.(missingShadow := stats.missingShadow + 1, reasons := Bump(stats.reasons, {MissingShadow}));
        }
        var pending := RememberIn(maps.missingShadow, o.key, o, Limit(cfg));
        maps := maps.(missingShadow := pending);
      }
    }

    method Compare(first: Observed, second: Observed)
      modifies this`stats
      ensures stats == CompareStats(cfg, old(stats), BotOf(first, second), ShadowOf(first, second))
    {
      var bot, shadow := BotOf(first, second), ShadowOf(first, second);
      stats := stats.(compared := stats.compared + 1);
      var c := CompareEventFields(bot, shadow);
      var lag := LagOf(bot, shadow);
      stats := stats.(lag := CountLag(cfg, stats.lag, lag));
      stats := stats.(drift := CountDrift(stats.drift, c), reasons := Bump(stats.reasons, c.driftReasons));
      stats := stats.(reasons := Bump(stats.reasons, c.reasons + LagReasons(cfg, lag)));
      stats := stats.(verdicts := CountVerdict(stats.verdicts, c, bot, shadow));
    }

    /** The field-by-field comparison; it counts the volumes as it goes. */
    method CompareEventFields(bot: Observed, shadow: Observed) returns (c: Comparison)
      modifies this`stats
      ensures c == CompareFields(cfg, bot, shadow)
      ensures stats == old(stats).(volume := CountVolume(cfg, old(stats).volume, bot, shadow))
    {
      hide PriceDiffs, IdentityMismatches, IdentityReasons, PartialPair, Abs;
      var isPartialPair := PartialPair(bot, shadow);
      var mismatches := IdentityMismatches(bot.event, shadow.event);
      var reasons := IdentityReasons(bot.event, shadow.event);
      var drift: set<Field>, driftReasons: set<Reason> := {}, {};
      var prices := FieldDiffs(bot.event.candle, shadow.event.candle);
      if isPartialPair {
        drift, driftReasons := prices, if prices != {} then {PartialOhlcDrift} else {};
      } else {
        mismatches, reasons := mismatches + prices, reasons + if prices != {} then {OhlcDiff} else {};
      }
      var volume := stats.volume;
      if bot.volume.None? || shadow.volume.None? {
        volume := volume.(missing := volume.missing + 1);
        reasons := reasons + {VolumeMissing};
        if bot.volume.None? {
          volume := volume.(missingBot := volume.missingBot + 1);
        }
        if shadow.volume.None? {
          volume := volume.(missingShadow := volume.missingShadow + 1);
        }
      } else {
        volume := volume.(comparable := volume.comparable + 1);
        if VolumesDiffer(cfg, bot, shadow) {
          if isPartialPair {
            driftReasons, drift := driftReasons + {PartialVolumeDrift}, drift + {Volume};
          } else {
            volume := volume.(mismatch := volume.mismatch + 1);
            mismatches, reasons := mismatches + {Volume}, reasons + {VolumeDiff};
          }
        }
      }
      stats := stats.(volume := volume);
      c := Comparison(mismatches, reasons, drift, driftReasons);
    }

    /** The loop over the four prices. */
    method FieldDiffs(b: Candle, s: Candle) returns (diffs: set<Field>)
      ensures diffs == PriceDiffs(cfg, b, s)
    {
      var fields := [Open, High, Low, Close];
      diffs := {};
      for i := 0 to |fields|
        invariant diffs == set f | f in fields[..i] && f in PriceDiffs(cfg, b, s)
      {
        if Abs(PriceOf(b, fields[i]) - PriceOf(s, fields[i])) > AtLeastZero(cfg.priceTolerance) {
          diffs := diffs + {fields[i]};
        }
        assert fields[..i + 1] == fields[..i] + [fields[i]];
      }
      assert fields[..|fields|] == fields;
    }

    /** store[key] = value, move to the end, drop the oldest entries over the limit. */
    static method RememberIn<V>(m: Ordered<V>, k: string, v: V, limit: nat) returns (r: Ordered<V>)
      requires limit > 0
      ensures r == Remember(m, k, v, limit)
    {
      r := Put(m, k, v);
      while |r.order| > limit
        invariant Evict(r, limit) == Evict(Put(m, k, v), limit)
        decreases |r.order|
      {
        r := Ordered(r.order[1..], r.at - {r.order[0]});
      }
    }
  }

  // ----- Runs -----

  datatype Report = Report(side: Side, o: Observed)

  function Run(cfg: Settings, st: Store, rs: seq<Report>): Store
    decreases |rs|
  {
    if rs == [] then st else Run(cfg, Record(cfg, st, rs[0].side, rs[0].o), rs[1..])
  }

  /** Events are built by the event constructor. */
  predicate Constructed(rs: seq<Report>) {
    forall r :: r in rs ==> Built(r.o)
  }

  /** The exchanges that each side reports. */
  predicate From(rs: seq<Report>, bots: set<string>, shadows: set<string>) {
    forall r :: r in rs ==> r.o.event.exchange in if r.side == Bot then bots else shadows
  }

  /** No name of one side shifts into one of the other, so a shared key means one event. */
  predicate Apart(bots: set<string>, shadows: set<string>) {
    forall x, y :: x in bots && y in shadows ==> !Shifts(x, y) && !Shifts(y, x)
  }

  /** What every entry of an event map is: a constructed event, filed under its own key. */
  ghost predicate KeyedBy(m: Ordered<Observed>) {
    Sound(m) && forall k :: k in m.at ==> m.at[k].key == k && Built(m.at[k])
  }

  /** A key that both transports hold is pending on neither side. */
  ghost predicate PairedIsNotPending(m: Maps) {
    forall k :: k in m.bot.at && k in m.shadow.at ==> k !in m.missingBot.at && k !in m.missingShadow.at
  }

  predicate Bounded(m: Maps, limit: nat) {
    && |m.bot.at| <= limit && |m.shadow.at| <= limit
    && |m.missingBot.at| <= limit && |m.missingShadow.at| <= limit
  }

  ghost predicate MapsAgree(m: Maps, limit: nat) {
    && KeyedBy(m.bot) && KeyedBy(m.shadow) && Sound(m.missingBot) && Sound(m.missingShadow)
    && PairedIsNotPending(m) && Bounded(m, limit)
  }

  lemma FilingKeepsKeys(m: Ordered<Observed>, mine: bool, o: Observed, limit: nat)
    requires limit > 0 && KeyedBy(m) && |m.at| <= limit && Built(o)
    ensures KeyedBy(EventsAfter(m, mine, o, limit))
  {
    hide Remember, Sound, Built;
  }

  lemma RecordKeepsPending(m: Maps, side: Side, o: Observed, limit: nat)
    requires limit > 0 && PairedIsNotPending(m)
    ensures PairedIsNotPending(RecordMaps(m, side, o, limit))
  {
    var t := RecordMaps(m, side, o, limit);
    forall k | k in t.bot.at && k in t.shadow.at
      ensures k !in t.missingBot.at && k !in t.missingShadow.at
    {
      if k != o.key {
        assert k in m.bot.at && k in m.shadow.at;
      }
    }
  }

  lemma RecordKeepsMaps(m: Maps, side: Side, o: Observed, limit: nat)
    requires limit > 0 && MapsAgree(m, limit) && Built(o)
    ensures MapsAgree(RecordMaps(m, side, o, limit), limit)
  {
    FilingKeepsKeys(m.bot, side == Bot, o, limit);
    FilingKeepsKeys(m.shadow, side == Shadow, o, limit);
    RecordKeepsPending(m, side, o, limit);
  }

  // ----- Counters -----

  /** The relations between the counters that hold after every report. */
  predicate Accounts(s: Stats) {
    && s.compared == s.verdicts.matched + s.verdicts.mismatched
    && s.compared == s.lag.samples
    && s.compared == s.volume.comparable + s.volume.missing
    && s.verdicts.finalMatched <= s.verdicts.matched && s.verdicts.finalMismatched <= s.verdicts.mismatched
    && s.volume.missingBot <= s.volume.missing && s.volume.missingShadow <= s.volume.missing
    && s.volume.missing <= s.volume.missingBot + s.volume.missingShadow
    && s.volume.mismatch <= s.verdicts.mismatched && s.volume.mismatch <= s.volume.comparable
    && s.drift.ohlc <= s.drift.total && s.drift.volume <= s.drift.total
    && s.drift.total <= s.drift.ohlc + s.drift.volume
    && s.compared + s.missingBot + s.missingShadow <= s.botSeen + s.shadowSeen
  }

  /** Each reason counter repeats the counter it explains; two reasons can never be counted at all. */
  predicate Reasons(s: Stats) {
    && CountOf(s.reasons, MissingBotHttp) == s.missingBot && CountOf(s.reasons, MissingShadow) == s.missingShadow
    && CountOf(s.reasons, DuplicateFinal) == s.duplicateFinal && CountOf(s.reasons, TimingLag) == s.lag.late
    && CountOf(s.reasons, VolumeMissing) == s.volume.missing && CountOf(s.reasons, VolumeDiff) == s.volume.mismatch
    && CountOf(s.reasons, PartialOhlcDrift) == s.drift.ohlc
    && CountOf(s.reasons, PartialVolumeDrift) == s.drift.volume
    && CountOf(s.reasons, OhlcDiff) <= s.verdicts.mismatched
    && CountOf(s.reasons, EventTypeDiff) == 0 && CountOf(s.reasons, FinalFlagDiff) == 0
  }

  /** Two events with one key agree on type and flags, so a partial pair has no identity mismatch. */
  lemma PairOfOneKey(bot: Observed, shadow: Observed)
    requires Built(bot) && Built(shadow) && bot.key == shadow.key
    ensures IdentityReasons(bot.event, shadow.event) == {}
    ensures bot.event.isFinal == shadow.event.isFinal
    ensures PartialPair(bot, shadow) <==> !bot.event.isFinal
    ensures IdentityMismatches(bot.event, shadow.event)
      == if bot.event.symbol != shadow.event.symbol then {Symbol} else {}
    ensures !Shifts(bot.event.exchange, shadow.event.exchange) && !Shifts(shadow.event.exchange, bot.event.exchange) ==>
      bot.event.symbol == shadow.event.symbol
  {
    hide Shifts;
    IdempotencyKeyIdentifies(bot.event, shadow.event);
  }

  lemma CompareKeepsAccounts(cfg: Settings, s: Stats, bot: Observed, shadow: Observed)
    requires Accounts(s)
    requires s.compared + s.missingBot + s.missingShadow < s.botSeen + s.shadowSeen
    ensures Accounts(CompareStats(cfg, s, bot, shadow))
  {
    var c := CompareFields(cfg, bot, shadow);
    assert VolumesDiffer(cfg, bot, shadow) && !PartialPair(bot, shadow) ==> Volume in c.mismatches;
    assert c.drift != {} ==> PartialOhlcDrift in c.driftReasons || PartialVolumeDrift in c.driftReasons;
  }

  /** When a comparison without identity mismatch counts each of its reasons. */
  lemma ReasonsOfComparison(cfg: Settings, bot: Observed, shadow: Observed)
    requires IdentityReasons(bot.event, shadow.event) == {}
    ensures var c := CompareFields(cfg, bot, shadow);
      && (VolumeMissing in c.reasons <==> VolumeIsMissing(bot, shadow))
      && (VolumeDiff in c.reasons <==> VolumesDiffer(cfg, bot, shadow) && !PartialPair(bot, shadow))
      && (OhlcDiff in c.reasons ==> c.mismatches != {})
      && c.reasons <= {VolumeMissing, VolumeDiff, OhlcDiff}
      && (c.driftReasons == {} <==> c.drift == {}) && c.driftReasons <= {PartialOhlcDrift, PartialVolumeDrift}
  {
    var c := CompareFields(cfg, bot, shadow);
    var prices := PriceDiffs(cfg, bot.event.candle, shadow.event.candle);
    assert OhlcDiff in c.reasons ==> prices != {} && prices <= c.mismatches;
    assert PartialPair(bot, shadow) ==> prices <= c.drift;
    assert VolumesDiffer(cfg, bot, shadow) ==> Volume in c.drift || Volume in c.mismatches;
  }

  lemma CompareKeepsReasons(cfg: Settings, s: Stats, bot: Observed, shadow: Observed)
    requires Reasons(s) && IdentityReasons(bot.event, shadow.event) == {}
    ensures Reasons(CompareStats(cfg, s, bot, shadow))
  {
    hide Bump, CompareFields, VolumesDiffer, VolumeIsMissing, PartialPair, Late, LagOf;
    ReasonsOfComparison(cfg, bot, shadow);
    var c := CompareFields(cfg, bot, shadow);
    var late := LagReasons(cfg, LagOf(bot, shadow));
    var t := CompareStats(cfg, s, bot, shadow);
    assert forall q ::
      CountOf(t.reasons, q) == CountOf(s.reasons, q) + One(q in c.driftReasons) + One(q in c.reasons + late);
    VolumesNeedNotBeMissing(cfg, bot, shadow);
  }

  lemma VolumesNeedNotBeMissing(cfg: Settings, bot: Observed, shadow: Observed)
    ensures VolumesDiffer(cfg, bot, shadow) ==> !VolumeIsMissing(bot, shadow)
  {
  }

  lemma OrderingKeepsAccounts(s: Stats, side: Side, finals: Ordered<bool>, o: Observed)
    requires Accounts(s) && Reasons(s)
    ensures var t := OrderingStats(Seen(s, side), finals, o);
      && Accounts(t) && Reasons(t) && t.verdicts == s.verdicts
      && t.compared + t.missingBot + t.missingShadow < t.botSeen + t.shadowSeen
  {
    hide Bump, CountOf;
  }

  lemma MissingKeepsAccounts(s: Stats, mb: Ordered<Observed>, ms: Ordered<Observed>, o: Observed)
    requires Accounts(s) && Reasons(s)
    requires s.compared + s.missingBot + s.missingShadow < s.botSeen + s.shadowSeen
    ensures Accounts(MissingStats(s, mb, ms, o)) && Reasons(MissingStats(s, mb, ms, o))
    ensures MissingStats(s, mb, ms, o).verdicts == s.verdicts
  {
    hide Bump;
  }

  lemma RecordKeepsAccounts(cfg: Settings, st: Store, side: Side, o: Observed)
    requires KeyedBy(st.maps.bot) && KeyedBy(st.maps.shadow) && Built(o)
    requires Accounts(st.stats) && Reasons(st.stats)
    ensures Accounts(RecordStats(cfg, Seen(st.stats, side), st.maps, st.finalSeen, side, o))
      && Reasons(RecordStats(cfg, Seen(st.stats, side), st.maps, st.finalSeen, side, o))
  {
    hide CompareStats, MissingStats, OrderingStats, Accounts, Reasons, Built, Sound, IdentityReasons,
         IdentityMismatches;
    var finals := FinalsOf(st.finalSeen, o.transport);
    var s := OrderingStats(Seen(st.stats, side), finals, o);
    OrderingKeepsAccounts(st.stats, side, finals, o);
    var other := Other(st.maps, side);
    if o.key in other.at {
      var bot, shadow := BotOf(other.at[o.key], o), ShadowOf(other.at[o.key], o);
      PairOfOneKey(bot, shadow);
      CompareKeepsAccounts(cfg, s, bot, shadow);
      CompareKeepsReasons(cfg, s, bot, shadow);
    } else {
      MissingKeepsAccounts(s, st.maps.missingBot, st.maps.missingShadow, o);
    }
  }

  /** After every sequence of reports, with any eviction: the maps agree and the counters balance. */
  lemma {:induction false} RunKeepsEverything(cfg: Settings, st: Store, rs: seq<Report>)
    requires MapsAgree(st.maps, Limit(cfg)) && Accounts(st.stats) && Reasons(st.stats) && Constructed(rs)
    ensures MapsAgree(Run(cfg, st, rs).maps, Limit(cfg))
    ensures Accounts(Run(cfg, st, rs).stats) && Reasons(Run(cfg, st, rs).stats)
    decreases |rs|
  {
    if rs != [] {
      assert rs[0] in rs;
      RecordKeepsMaps(st.maps, rs[0].side, rs[0].o, Limit(cfg));
      RecordKeepsAccounts(cfg, st, rs[0].side, rs[0].o);
      RunKeepsEverything(cfg, Record(cfg, st, rs[0].side, rs[0].o), rs[1..]);
    }
  }

  lemma NewStoreIsFine(cfg: Settings)
    ensures MapsAgree(NoMaps(), Limit(cfg)) && Accounts(NoStats()) && Reasons(NoStats())
    ensures forall xs :: Holds(NoMaps().bot, xs) && Holds(NoMaps().shadow, xs)
    ensures NoStats().verdicts.mismatched == NoStats().verdicts.finalMismatched
  {
  }

  /** In particular from an empty store: every reachable state of the store agrees and balances. */
  lemma EveryStoreAgrees(cfg: Settings, rs: seq<Report>)
    ensures var st := Run(cfg, Store(NoMaps(), map[], NoStats()), rs);
      Constructed(rs) ==> MapsAgree(st.maps, Limit(cfg)) && Accounts(st.stats) && Reasons(st.stats)
  {
    hide *;
    NewStoreIsFine(cfg);
    if Constructed(rs) {
      RunKeepsEverything(cfg, Store(NoMaps(), map[], NoStats()), rs);
    }
  }

  // ----- Every mismatch is a final mismatch -----

  /** The map holds events of these exchanges. */
  ghost predicate Holds(m: Ordered<Observed>, exchanges: set<string>) {
    forall k :: k in m.at ==> m.at[k].event.exchange in exchanges
  }

  lemma CompareIsFinalOnly(cfg: Settings, s: Stats, bot: Observed, shadow: Observed)
    requires IdentityMismatches(bot.event, shadow.event) == {}
    requires PartialPair(bot, shadow) <==> !bot.event.isFinal
    ensures s.verdicts.mismatched == s.verdicts.finalMismatched ==>
      var t := CompareStats(cfg, s, bot, shadow);
      t.verdicts.mismatched == t.verdicts.finalMismatched
  {
    hide Bump, CountVolume, CountLag, CountDrift, IdentityMismatches, IdentityReasons;
  }

  lemma RecordKeepsFinalOnly(
    cfg: Settings, st: Store, side: Side, o: Observed, bots: set<string>, shadows: set<string>)
    requires KeyedBy(st.maps.bot) && KeyedBy(st.maps.shadow)
    requires Holds(st.maps.bot, bots) && Holds(st.maps.shadow, shadows) && Apart(bots, shadows)
    requires Built(o) && o.event.exchange in if side == Bot then bots else shadows
    requires OnlyFinals(st)
    ensures OnlyFinals(Record(cfg, st, side, o))
  {
    hide CompareStats, Built, Sound, IdentityReasons, IdentityMismatches, Bump, Shifts, RecordMaps, RecordFinals;
    var s := OrderingStats(Seen(st.stats, side), FinalsOf(st.finalSeen, o.transport), o);
    assert s.verdicts == st.stats.verdicts;
    var other := Other(st.maps, side);
    if o.key in other.at {
      var bot, shadow := BotOf(other.at[o.key], o), ShadowOf(other.at[o.key], o);
      PairOfOneKey(bot, shadow);
      CompareIsFinalOnly(cfg, s, bot, shadow);
    }
  }

  /** Partial pairs only drift: while the names of the two sides are apart, every counted mismatch is final. */
  lemma {:induction false} MismatchesAreFinal(
    cfg: Settings, st: Store, rs: seq<Report>, bots: set<string>, shadows: set<string>)
    requires MapsAgree(st.maps, Limit(cfg)) && Holds(st.maps.bot, bots) && Holds(st.maps.shadow, shadows)
    requires Constructed(rs) && From(rs, bots, shadows) && Apart(bots, shadows)
    requires OnlyFinals(st)
    ensures OnlyFinals(Run(cfg, st, rs))
    decreases |rs|
  {
    hide Apart, OnlyFinals, MapsAgree, Holds, Record, Limit, Built, From, Constructed;
    if rs != [] {
      HeadAndTail(rs, bots, shadows);
      RecordKeepsAll(cfg, st, rs[0], bots, shadows);
      MismatchesAreFinal(cfg, Record(cfg, st, rs[0].side, rs[0].o), rs[1..], bots, shadows);
    }
  }

  lemma HeadAndTail(rs: seq<Report>, bots: set<string>, shadows: set<string>)
    requires rs != [] && Constructed(rs) && From(rs, bots, shadows)
    ensures Built(rs[0].o) && rs[0].o.event.exchange in (if rs[0].side == Bot then bots else shadows)
    ensures Constructed(rs[1..]) && From(rs[1..], bots, shadows)
  {
    hide Built;
    assert rs[0] in rs;
  }

  lemma RecordKeepsAll(cfg: Settings, st: Store, r: Report, bots: set<string>, shadows: set<string>)
    requires MapsAgree(st.maps, Limit(cfg)) && Holds(st.maps.bot, bots) && Holds(st.maps.shadow, shadows)
    requires Apart(bots, shadows) && OnlyFinals(st)
    requires Built(r.o) && r.o.event.exchange in if r.side == Bot then bots else shadows
    ensures var t := Record(cfg, st, r.side, r.o);
      && MapsAgree(t.maps, Limit(cfg)) && Holds(t.maps.bot, bots) && Holds(t.maps.shadow, shadows) && OnlyFinals(t)
  {
    hide Apart, OnlyFinals, Holds, RecordStats, RecordFinals, PendingAfter, EventsAfter, Sound, Built, Seen;
    RecordKeepsMaps(st.maps, r.side, r.o, Limit(cfg));
    RecordKeepsFinalOnly(cfg, st, r.side, r.o, bots, shadows);
    FilingKeepsSide(st.maps.bot, r.side == Bot, r.o, Limit(cfg), bots);
    FilingKeepsSide(st.maps.shadow, r.side == Shadow, r.o, Limit(cfg), shadows);
  }

  lemma FilingKeepsSide(m: Ordered<Observed>, mine: bool, o: Observed, limit: nat, exchanges: set<string>)
    requires limit > 0 && Sound(m) && Holds(m, exchanges) && (mine ==> o.event.exchange in exchanges)
    ensures Holds(EventsAfter(m, mine, o, limit), exchanges)
  {
    hide Remember, Sound;
  }

  function NewStore(): Store {
    Store(NoMaps(), map[], NoStats())
  }

  /** Exactly the final mismatches were counted as mismatches. */
  predicate OnlyFinals(st: Store) {
    st.stats.verdicts.mismatched == st.stats.verdicts.finalMismatched
  }

  ghost predicate AlwaysOnlyFinals(cfg: Settings, bots: set<string>, shadows: set<string>) {
    forall rs :: Constructed(rs) && From(rs, bots, shadows) ==> OnlyFinals(Run(cfg, NewStore(), rs))
  }

  lemma EveryMismatchIsFinal(cfg: Settings, bots: set<string>, shadows: set<string>)
    requires Apart(bots, shadows)
    ensures AlwaysOnlyFinals(cfg, bots, shadows)
  {
    hide Run, MapsAgree, Constructed, From, Apart, NoMaps, NoStats, Limit, Holds;
    NewStoreIsFine(cfg);
    forall rs | Constructed(rs) && From(rs, bots, shadows)
      ensures OnlyFinals(Run(cfg, NewStore(), rs))
    {
      MismatchesAreFinal(cfg, NewStore(), rs, bots, shadows);
    }
  }

  /**
    For a store whose sides report events of any given exchanges, mismatch_total equals
    final_mismatch_total in every reachable state exactly when the names of the two sides are apart.
   */
  lemma MismatchesAreFinalIff(cfg: Settings, bots: set<string>, shadows: set<string>)
    requires forall x :: x in bots || x in shadows ==> x != "" && Lower(x) == x
    ensures AlwaysOnlyFinals(cfg, bots, shadows) <==> Apart(bots, shadows)
  {
    hide *;
    if Apart(bots, shadows) {
      EveryMismatchIsFinal(cfg, bots, shadows);
    } else {
      var x, y := MixedPair(bots, shadows);
      var rs := ShiftParts(cfg, x, y);
      PartsAlways(cfg, bots, shadows, rs);
    }
  }

  lemma MixedPair(bots: set<string>, shadows: set<string>) returns (x: string, y: string)
    requires !Apart(bots, shadows)
    ensures x in bots && y in shadows && (Shifts(x, y) || Shifts(y, x))
  {
    hide Shifts;
    x, y :| x in bots && y in shadows && (Shifts(x, y) || Shifts(y, x));
  }

  lemma PartsAlways(cfg: Settings, bots: set<string>, shadows: set<string>, rs: seq<Report>)
    requires Constructed(rs) && |rs| == 2 && rs[0].side == Bot && rs[1].side == Shadow
    requires rs[0].o.event.exchange in bots && rs[1].o.event.exchange in shadows
    requires !OnlyFinals(Run(cfg, NewStore(), rs))
    ensures !AlwaysOnlyFinals(cfg, bots, shadows)
  {
    hide Run, NewStore, OnlyFinals, Constructed;
    assert From(rs, bots, shadows);
  }

  /**
    Two partials, a bot report of exchange x and a NATS report of exchange y, whose key is shared by two
    symbols: they are counted as a mismatch that is no final mismatch.
   */
  lemma ShiftParts(cfg: Settings, x: string, y: string) returns (rs: seq<Report>)
    requires x != "" && y != "" && Lower(x) == x && Lower(y) == y && (Shifts(x, y) || Shifts(y, x))
    ensures Constructed(rs) && !OnlyFinals(Run(cfg, NewStore(), rs))
    ensures |rs| == 2 && rs[0].side == Bot && rs[0].o.transport == BotHttp && rs[0].o.event.exchange == x
    ensures rs[1].side == Shadow && rs[1].o.transport == NatsShadow && rs[1].o.event.exchange == y
    ensures rs[0].o.event.symbol != "" && rs[1].o.event.symbol != ""
  {
    hide *;
    var a, b;
    if Shifts(x, y) {
      a, b := ShiftCollides(x, y);
    } else {
      b, a := ShiftCollides(y, x);
      CollisionIsSymmetric(b, a);
    }
    var bot, shadow := Observe(BotHttp, a, 0, None), Observe(NatsShadow, b, 0, None);
    rs := [Report(Bot, bot), Report(Shadow, shadow)];
    CollidersAreReports(a, b);
    FirstReport(cfg, bot);
    SecondReport(cfg, Record(cfg, NewStore(), Bot, bot), bot, shadow);
    RunTwo(cfg, NewStore(), rs[0], rs[1]);
  }

  lemma RunTwo(cfg: Settings, st: Store, r1: Report, r2: Report)
    ensures Run(cfg, st, [r1, r2]) == Record(cfg, Record(cfg, st, r1.side, r1.o), r2.side, r2.o)
  {
    hide Record;
    assert [r1, r2][1..] == [r2] && [r2][1..] == [];
    assert Run(cfg, st, [r1, r2]) == Run(cfg, Record(cfg, st, r1.side, r1.o), [r2]);
  }

  lemma CollidersAreReports(a: LiveEvent, b: LiveEvent)
    requires Collide(a, b) && a.eventType == b.eventType == Partial
    ensures var bot, shadow := Observe(BotHttp, a, 0, None), Observe(NatsShadow, b, 0, None);
      && Constructed([Report(Bot, bot), Report(Shadow, shadow)])
      && bot.transport == BotHttp && shadow.transport == NatsShadow && bot.key == shadow.key
      && bot.event == a && shadow.event == b && !a.isFinal && !b.isFinal
  {
    hide IdempotencyKey, CandleKey;
  }

  lemma FirstReport(cfg: Settings, bot: Observed)
    requires bot.transport == BotHttp && !bot.event.isFinal
    ensures var once := Record(cfg, NewStore(), Bot, bot);
      && bot.key in once.maps.bot.at && once.maps.bot.at[bot.key] == bot
      && once.stats.verdicts == NoStats().verdicts
  {
    hide Remember, RecordFinals, PendingAfter, Evict, Put, Bump;
    assert Sound(NoMaps().bot);
  }

  lemma SecondReport(cfg: Settings, once: Store, bot: Observed, shadow: Observed)
    requires bot.transport == BotHttp && shadow.transport == NatsShadow && bot.key == shadow.key
    requires shadow.key in once.maps.bot.at && once.maps.bot.at[shadow.key] == bot
    requires bot.event.symbol != shadow.event.symbol && !bot.event.isFinal && !shadow.event.isFinal
    requires once.stats.verdicts == NoStats().verdicts
    ensures !OnlyFinals(Record(cfg, once, Shadow, shadow))
  {
    hide Remember, RecordFinals, RecordMaps, Bump, CountVolume, CountLag, CountDrift, PriceDiffs, VolumesDiffer;
    assert Symbol in IdentityMismatches(bot.event, shadow.event);
    assert Symbol in CompareFields(cfg, bot, shadow).mismatches;
  }

  // ----- The program's own reports -----

  const BYBIT := "bybit"

  /**
    What the program's builders report: the bot and the ingest transport always of bybit, the NATS
    transport of whatever exchange its payloads name.
   */
  predicate Feeds(rs: seq<Report>, nats: set<string>) {
    ProperTransports(rs)
    && forall r :: r in rs ==> if r.o.transport == NatsShadow then r.o.event.exchange in nats
       else r.o.event.exchange == BYBIT
  }

  ghost predicate FeedsOnlyFinals(cfg: Settings, nats: set<string>) {
    forall rs :: Constructed(rs) && Feeds(rs, nats) ==> OnlyFinals(Run(cfg, NewStore(), rs))
  }

  lemma FeedsComeFrom(rs: seq<Report>, nats: set<string>)
    requires Feeds(rs, nats)
    ensures From(rs, {BYBIT}, {BYBIT} + nats)
  {
  }

  lemma BybitIsApart(nats: set<string>)
    ensures Apart({BYBIT}, {BYBIT} + nats) <==> forall y :: y in nats ==> !Shifts(BYBIT, y)
  {
    hide Shifts;
    forall y
      ensures !Shifts(y, BYBIT)
    {
      ColonFreeNeverShifts(y, BYBIT);
    }
  }

  /**
    For the program's own reports, mismatch_total equals final_mismatch_total in every reachable state
    exactly when no NATS payload names an exchange such as bybit:1, into which bybit shifts.
   */
  lemma FeedsOnlyFinalsIff(cfg: Settings, nats: set<string>)
    requires forall y :: y in nats ==> y != "" && Lower(y) == y
    ensures FeedsOnlyFinals(cfg, nats) <==> forall y :: y in nats ==> !Shifts(BYBIT, y)
  {
    hide Run, Constructed, Feeds, From, Apart, NewStore, OnlyFinals, Shifts;
    BybitIsApart(nats);
    if y :| y in nats && Shifts(BYBIT, y) {
      assert Lower(BYBIT) == BYBIT;
      var rs := ShiftParts(cfg, BYBIT, y);
      TwoReportsFeed(rs, nats);
    } else {
      EveryMismatchIsFinal(cfg, {BYBIT}, {BYBIT} + nats);
      forall rs | Constructed(rs) && Feeds(rs, nats)
        ensures OnlyFinals(Run(cfg, NewStore(), rs))
      {
        FeedsComeFrom(rs, nats);
      }
    }
  }

  lemma TwoReportsFeed(rs: seq<Report>, nats: set<string>)
    requires |rs| == 2 && rs[0].side == Bot && rs[0].o.transport == BotHttp && rs[0].o.event.exchange == BYBIT
    requires rs[1].side == Shadow && rs[1].o.transport == NatsShadow && rs[1].o.event.exchange in nats
    ensures Feeds(rs, nats)
  {
  }

  /** In particular whenever the payloads name exchanges without colons. */
  lemma ColonFreeFeeds(cfg: Settings, nats: set<string>)
    requires forall y :: y in nats ==> y != "" && Lower(y) == y && ':' !in y
    ensures FeedsOnlyFinals(cfg, nats)
  {
    hide Shifts, FeedsOnlyFinals;
    forall y | y in nats
      ensures !Shifts(BYBIT, y)
    {
      ColonFreeNeverShifts(BYBIT, y);
    }
    FeedsOnlyFinalsIff(cfg, nats);
  }

  // ----- Without eviction the pending maps are exact -----

  /** Each side reports with its own transport. */
  predicate ProperTransports(rs: seq<Report>) {
    forall r :: r in rs ==> (r.side == Bot <==> r.o.transport == BotHttp)
  }

  function KeysOf(rs: seq<Report>, side: Side): set<string> {
    set r | r in rs && r.side == side :: r.o.key
  }

  ghost predicate Exact(m: Maps, botKeys: set<string>, shadowKeys: set<string>) {
    && Sound(m.bot) && Sound(m.shadow) && Sound(m.missingBot) && Sound(m.missingShadow)
    && m.bot.at.Keys == botKeys && m.shadow.at.Keys == shadowKeys
    && m.missingShadow.at.Keys == botKeys - shadowKeys
    && m.missingBot.at.Keys == shadowKeys - botKeys
  }

  lemma FilingIsExact(m: Ordered<Observed>, mine: bool, o: Observed, limit: nat, all: set<string>)
    requires limit > 0 && Sound(m) && m.at.Keys + {o.key} <= all && |all| <= limit
    ensures Sound(EventsAfter(m, mine, o, limit))
    ensures EventsAfter(m, mine, o, limit).at.Keys == if mine then m.at.Keys + {o.key} else m.at.Keys
  {
    hide Remember, Sound, EventsAfter;
    SubsetCount(m.at.Keys + {o.key}, all);
  }

  lemma PendingKeysAreExact(p: Ordered<Observed>, paired: bool, mine: bool, o: Observed, limit: nat, all: set<string>)
    requires limit > 0 && Sound(p) && p.at.Keys + {o.key} <= all && |all| <= limit
    ensures Sound(PendingAfter(p, paired, mine, o, limit))
    ensures PendingAfter(p, paired, mine, o, limit).at.Keys
      == if paired then p.at.Keys - {o.key} else if mine then p.at.Keys + {o.key} else p.at.Keys
  {
    hide Remember, Pop, Sound, PendingAfter;
    SubsetCount(p.at.Keys + {o.key}, all);
  }

  lemma PairSets(a: set<string>, b: set<string>, k: string)
    ensures k in b ==> (a - b) - {k} == (a + {k}) - b && (b - a) - {k} == b - (a + {k})
    ensures k !in b ==> (a - b) + {k} == (a + {k}) - b && b - a == b - (a + {k})
  {
  }

  lemma RecordKeepsExact(
    m: Maps, r: Report, limit: nat, botKeys: set<string>, shadowKeys: set<string>, all: set<string>)
    requires limit > 0 && Exact(m, botKeys, shadowKeys) && (r.side == Bot <==> r.o.transport == BotHttp)
    requires botKeys + shadowKeys + {r.o.key} <= all && |all| <= limit
    ensures Exact(RecordMaps(m, r.side, r.o, limit),
                  if r.side == Bot then botKeys + {r.o.key} else botKeys,
                  if r.side == Shadow then shadowKeys + {r.o.key} else shadowKeys)
  {
    hide Remember, Pop, Sound, EventsAfter, PendingAfter;
    var paired := r.o.key in Other(m, r.side).at;
    FilingIsExact(m.bot, r.side == Bot, r.o, limit, all);
    FilingIsExact(m.shadow, r.side == Shadow, r.o, limit, all);
    PendingKeysAreExact(m.missingBot, paired, r.o.transport != BotHttp, r.o, limit, all);
    PendingKeysAreExact(m.missingShadow, paired, r.o.transport == BotHttp, r.o, limit, all);
    if r.side == Bot {
      PairSets(botKeys, shadowKeys, r.o.key);
    } else {
      PairSets(shadowKeys, botKeys, r.o.key);
    }
  }

  function RunMaps(m: Maps, rs: seq<Report>, limit: nat): Maps
    requires limit > 0
    decreases |rs|
  {
    if rs == [] then m else RunMaps(RecordMaps(m, rs[0].side, rs[0].o, limit), rs[1..], limit)
  }

  lemma {:induction false} RunHasRunMaps(cfg: Settings, st: Store, rs: seq<Report>)
    ensures Run(cfg, st, rs).maps == RunMaps(st.maps, rs, Limit(cfg))
    decreases |rs|
  {
    if rs != [] {
      RunHasRunMaps(cfg, Record(cfg, st, rs[0].side, rs[0].o), rs[1..]);
    }
  }

  /**
    As long as the run's keys fit into the maps, the pending maps are exactly the keys that one
    transport has reported and the other has not.
   */
  lemma {:induction false} PendingIsExact(
    m: Maps, rs: seq<Report>, limit: nat, botKeys: set<string>, shadowKeys: set<string>, all: set<string>)
    requires limit > 0 && Exact(m, botKeys, shadowKeys) && ProperTransports(rs)
    requires botKeys + shadowKeys + KeysOf(rs, Bot) + KeysOf(rs, Shadow) <= all && |all| <= limit
    ensures Exact(RunMaps(m, rs, limit), botKeys + KeysOf(rs, Bot), shadowKeys + KeysOf(rs, Shadow))
    decreases |rs|
  {
    hide RecordMaps, Exact;
    if rs == [] {
      assert botKeys + KeysOf(rs, Bot) == botKeys && shadowKeys + KeysOf(rs, Shadow) == shadowKeys;
    } else {
      hide KeysOf;
      var r := rs[0];
      var botKeys' := if r.side == Bot then botKeys + {r.o.key} else botKeys;
      var shadowKeys' := if r.side == Shadow then shadowKeys + {r.o.key} else shadowKeys;
      KeysOfCons(rs, Bot);
      KeysOfCons(rs, Shadow);
      assert r in rs;
      RecordKeepsExact(m, r, limit, botKeys, shadowKeys, all);
      PendingIsExact(RecordMaps(m, r.side, r.o, limit), rs[1..], limit, botKeys', shadowKeys', all);
      assert botKeys' + KeysOf(rs[1..], Bot) == botKeys + KeysOf(rs, Bot);
      assert shadowKeys' + KeysOf(rs[1..], Shadow) == shadowKeys + KeysOf(rs, Shadow);
    }
  }

  lemma KeysOfCons(rs: seq<Report>, side: Side)
    requires rs != []
    ensures KeysOf(rs, side) == (if rs[0].side == side then {rs[0].o.key} else {}) + KeysOf(rs[1..], side)
  {
    assert rs == [rs[0]] + rs[1..];
    assert rs[0] in rs;
    forall r | r in rs[1..] ensures r in rs {
      assert r in [rs[0]] + rs[1..];
    }
  }

  /** The same for the store itself, from its creation. */
  lemma PendingOfRun(cfg: Settings, rs: seq<Report>)
    requires ProperTransports(rs)
    requires |KeysOf(rs, Bot) + KeysOf(rs, Shadow)| <= Limit(cfg)
    ensures var m := Run(cfg, Store(NoMaps(), map[], NoStats()), rs).maps;
      && m.missingShadow.at.Keys == KeysOf(rs, Bot) - KeysOf(rs, Shadow)
      && m.missingBot.at.Keys == KeysOf(rs, Shadow) - KeysOf(rs, Bot)
  {
    hide RecordMaps, Run, RunMaps;
    var none: set<string> := {};
    var st := Store(NoMaps(), map[], NoStats());
    RunHasRunMaps(cfg, st, rs);
    PendingIsExact(NoMaps(), rs, Limit(cfg), none, none, KeysOf(rs, Bot) + KeysOf(rs, Shadow));
    assert none + KeysOf(rs, Bot) == KeysOf(rs, Bot) && none + KeysOf(rs, Shadow) == KeysOf(rs, Shadow);
  }

  // ----- What a bounded memory holds -----

  datatype Entry<V> = Entry(key: string, value: V)

  /** The memory after these insertions. */
  function Filed<V>(ws: seq<Entry<V>>, limit: nat): Ordered<V>
    requires limit > 0
    decreases |ws|
  {
    if ws == [] then Empty()
    else Remember(Filed(ws[..|ws| - 1], limit), ws[|ws| - 1].key, ws[|ws| - 1].value, limit)
  }

  /** What was inserted last under a key. */
  function LastValue<V>(ws: seq<Entry<V>>, k: string): Option<V>
    decreases |ws|
  {
    if ws == [] then None
    else if ws[|ws| - 1].key == k then Some(ws[|ws| - 1].value)
    else LastValue(ws[..|ws| - 1], k)
  }

  /** The other keys inserted since. */
  function Since<V>(ws: seq<Entry<V>>, k: string): set<string>
    decreases |ws|
  {
    if ws == [] || ws[|ws| - 1].key == k then {}
    else {ws[|ws| - 1].key} + Since(ws[..|ws| - 1], k)
  }

  /** A key is held exactly when fewer than limit others were inserted since, and with its last value. */
  ghost predicate HoldsLatest<V>(m: Ordered<V>, ws: seq<Entry<V>>, limit: nat) {
    forall k :: match LastValue(ws, k)
      case None => k !in m.at
      case Some(v) => (k in m.at <==> |Since(ws, k)| < limit) && (k in m.at ==> m.at[k] == v)
  }

  /** The keys behind a key in the order. */
  function After(s: seq<string>, k: string): set<string> {
    if s == [] then {} else if s[0] == k then Elems(s[1..]) else After(s[1..], k)
  }

  lemma {:induction false} AfterIsSmaller(s: seq<string>, k: string)
    requires Distinct(s) && k in Elems(s)
    ensures After(s, k) <= Elems(s) - {k}
  {
    if s[0] != k {
      AfterIsSmaller(s[1..], k);
    }
  }

  lemma {:induction false} AfterWithout(s: seq<string>, k: string, x: string)
    requires Distinct(s) && k != x && k in Elems(s)
    ensures After(Without(s, x), k) == After(s, k) - {x} && k in Elems(Without(s, x))
  {
    if s[0] == k {
      assert Without(s, x) == [k] + Without(s[1..], x);
    } else if s[0] == x {
      AfterWithout(s[1..], k, x);
      WithoutNothing(s[1..], x);
    } else {
      AfterWithout(s[1..], k, x);
      assert Without(s, x) == [s[0]] + Without(s[1..], x);
    }
  }

  lemma {:induction false} WithoutNothing(s: seq<string>, x: string)
    requires x !in Elems(s)
    ensures Without(s, x) == s
  {
    if s != [] {
      WithoutNothing(s[1..], x);
      assert s == [s[0]] + s[1..];
    }
  }

  lemma {:induction false} AfterSnoc(s: seq<string>, x: string, k: string)
    requires x !in Elems(s) && (k == x || k in Elems(s))
    ensures After(s + [x], k) == if k == x then {} else After(s, k) + {x}
  {
    Snoc(s, x);
    if s == [] {
      assert s + [x] == [x] && [x][1..] == [];
    } else {
      assert (s + [x])[1..] == s[1..] + [x];
      Snoc(s[1..], x);
      if s[0] != k {
        AfterSnoc(s[1..], x, k);
      }
    }
  }

  /** The order tells which keys were inserted since; what is gone was followed by at least limit others. */
  ghost predicate Tells<V>(m: Ordered<V>, ws: seq<Entry<V>>, limit: nat) {
    && Sound(m)
    && forall k ::
         && (k in m.at ==> LastValue(ws, k) == Some(m.at[k]) && After(m.order, k) == Since(ws, k))
         && (k !in m.at ==> LastValue(ws, k).None? || |Since(ws, k)| >= limit)
  }

  lemma PutTells<V>(m: Ordered<V>, ws: seq<Entry<V>>, w: Entry<V>, limit: nat)
    requires Tells(m, ws, limit)
    ensures Tells(Put(m, w.key, w.value), ws + [w], limit)
  {
    hide Put, LastValue, Since, After, Without, Elems, Distinct;
    var p := PutOf(m, w.key, w.value);
    var ws' := ws + [w];
    forall k
      ensures k in p.at ==> LastValue(ws', k) == Some(p.at[k]) && After(p.order, k) == Since(ws', k)
      ensures k !in p.at ==> LastValue(ws', k).None? || |Since(ws', k)| >= limit
    {
      OneMore(ws, w, k);
      if k == w.key {
        AfterSnoc(Without(m.order, k), k, k);
      } else if k in m.at {
        AfterWithout(m.order, k, w.key);
        AfterSnoc(Without(m.order, w.key), w.key, k);
        assert After(m.order, k) - {w.key} + {w.key} == {w.key} + Since(ws, k);
      } else {
        SubsetCount(Since(ws, k), Since(ws', k));
      }
    }
  }

  lemma OneMore<V>(ws: seq<Entry<V>>, w: Entry<V>, k: string)
    ensures LastValue(ws + [w], k) == if k == w.key then Some(w.value) else LastValue(ws, k)
    ensures Since(ws + [w], k) == if k == w.key then {} else {w.key} + Since(ws, k)
  {
    var ws' := ws + [w];
    assert ws'[..|ws'| - 1] == ws && ws'[|ws'| - 1] == w;
  }

  lemma PutOf<V>(m: Ordered<V>, k: string, v: V) returns (p: Ordered<V>)
    ensures p == Put(m, k, v) && p.order == Without(m.order, k) + [k] && p.at == m.at[k := v]
  {
    p := Put(m, k, v);
  }

  lemma {:induction false} EvictTells<V>(m: Ordered<V>, ws: seq<Entry<V>>, limit: nat)
    requires Tells(m, ws, limit)
    ensures Tells(Evict(m, limit), ws, limit)
    decreases |m.order|
  {
    if |m.order| > limit {
      var first := m.order[0];
      var rest := Ordered(m.order[1..], m.at - {first});
      DistinctCount(m.order[1..]);
      assert After(m.order, first) == Elems(rest.order);
      forall k | k in rest.at
        ensures After(rest.order, k) == Since(ws, k)
      {
        assert After(m.order, k) == After(rest.order, k);
      }
      EvictTells(rest, ws, limit);
    }
  }

  lemma TellsLatest<V>(m: Ordered<V>, ws: seq<Entry<V>>, limit: nat)
    requires Tells(m, ws, limit) && |m.at| <= limit
    ensures HoldsLatest(m, ws, limit)
  {
    forall k | k in m.at
      ensures |Since(ws, k)| < limit
    {
      AfterIsSmaller(m.order, k);
      SubsetCount(After(m.order, k), m.at.Keys - {k});
      assert |m.at.Keys - {k}| == |m.at.Keys| - 1;
      assert |m.at| == |m.at.Keys|;
    }
  }

  /** After any insertions a memory holds the last value of each of its limit latest keys, and no other. */
  lemma {:induction false} FiledHoldsLatest<V>(ws: seq<Entry<V>>, limit: nat)
    requires limit > 0
    ensures Tells(Filed(ws, limit), ws, limit) && HoldsLatest(Filed(ws, limit), ws, limit)
    decreases |ws|
  {
    hide Put, Evict, Tells, Sound, HoldsLatest;
    if ws == [] {
      NothingTells<V>(limit);
      TellsLatest(Filed(ws, limit), ws, limit);
    } else {
      var front, w := ws[..|ws| - 1], ws[|ws| - 1];
      assert ws == front + [w];
      FiledHoldsLatest(front, limit);
      var m := Filed(front, limit);
      TellsIsSound(m, front, limit);
      PutTells(m, front, w, limit);
      EvictTells(Put(m, w.key, w.value), ws, limit);
      RememberIs(m, w.key, w.value, limit);
      TellsLatest(Filed(ws, limit), ws, limit);
    }
  }

  lemma NothingTells<V>(limit: nat)
    ensures Tells<V>(Empty(), [], limit)
  {
  }

  lemma TellsIsSound<V>(m: Ordered<V>, ws: seq<Entry<V>>, limit: nat)
    requires Tells(m, ws, limit)
    ensures Sound(m)
  {
  }

  lemma RememberIs<V>(m: Ordered<V>, k: string, v: V, limit: nat)
    requires limit > 0
    ensures Remember(m, k, v, limit) == Evict(Put(m, k, v), limit)
  {
    hide Put, Evict;
  }

  // ----- What one more report counts -----

  predicate Far(a: real, b: real, tolerance: real) {
    var t := if tolerance > 0.0 then tolerance else 0.0;
    a - b > t || b - a > t
  }

  predicate PricesApart(cfg: Settings, a: Candle, b: Candle) {
    Far(a.open, b.open, cfg.priceTolerance) || Far(a.high, b.high, cfg.priceTolerance)
    || Far(a.low, b.low, cfg.priceTolerance) || Far(a.close, b.close, cfg.priceTolerance)
  }

  predicate VolumesApart(cfg: Settings, a: Option<real>, b: Option<real>) {
    a.Some? && b.Some? && Far(a.value, b.value, cfg.volumeTolerance)
  }

  /**
    The counters after a pair of one key: finals mismatch when prices or volumes are apart, partials only
    drift; both mismatch when the key hides two symbols.
   */
  predicate CountsPair(cfg: Settings, s: Stats, t: Stats, bot: Observed, shadow: Observed) {
    var final, named := bot.event.isFinal, bot.event.symbol != shadow.event.symbol;
    var prices := PricesApart(cfg, bot.event.candle, shadow.event.candle);
    var volumes, both := VolumesApart(cfg, bot.volume, shadow.volume), bot.volume.Some? && shadow.volume.Some?;
    var differ := named || (final && (prices || volumes));
    var lag := if bot.receivedAtMs > shadow.receivedAtMs
      then bot.receivedAtMs - shadow.receivedAtMs else shadow.receivedAtMs - bot.receivedAtMs;
    && t.compared == s.compared + 1
    && t.verdicts == Verdicts(
         s.verdicts.matched + One(!differ), s.verdicts.mismatched + One(differ),
         s.verdicts.finalMatched + One(final && !differ), s.verdicts.finalMismatched + One(final && differ))
    && t.drift == DriftCounts(
         s.drift.total + One(!final && (prices || volumes)),
         s.drift.ohlc + One(!final && prices), s.drift.volume + One(!final && volumes))
    && t.volume == VolumeCounts(
         s.volume.comparable + One(both), s.volume.missing + One(!both),
         s.volume.missingBot + One(bot.volume.None?), s.volume.missingShadow + One(shadow.volume.None?),
         s.volume.mismatch + One(final && volumes))
    && t.lag.samples == s.lag.samples + 1 && t.lag.total == s.lag.total + lag
    && t.lag.min == (if s.lag.samples == 0 || lag < s.lag.min then lag else s.lag.min)
    && t.lag.max == (if lag > s.lag.max then lag else s.lag.max)
    && t.lag.late == s.lag.late + One(lag > cfg.lagWarnMs && lag > 0)
    && CountOf(t.reasons, OhlcDiff) == CountOf(s.reasons, OhlcDiff) + One(final && prices)
  }

  lemma PricesAreApart(cfg: Settings, a: Candle, b: Candle)
    ensures PriceDiffs(cfg, a, b) != {} <==> PricesApart(cfg, a, b)
  {
    var diffs := PriceDiffs(cfg, a, b);
    assert Open in diffs <==> Far(a.open, b.open, cfg.priceTolerance);
    assert High in diffs <==> Far(a.high, b.high, cfg.priceTolerance);
    assert Low in diffs <==> Far(a.low, b.low, cfg.priceTolerance);
    assert Close in diffs <==> Far(a.close, b.close, cfg.priceTolerance);
    if f :| f in diffs {
      assert f in {Open, High, Low, Close};
    }
  }

  lemma VolumeCounted(cfg: Settings, v: VolumeCounts, bot: Observed, shadow: Observed)
    ensures var both := bot.volume.Some? && shadow.volume.Some?;
      CountVolume(cfg, v, bot, shadow) == VolumeCounts(
        v.comparable + One(both), v.missing + One(!both),
        v.missingBot + One(bot.volume.None?), v.missingShadow + One(shadow.volume.None?),
        v.mismatch + One(!PartialPair(bot, shadow) && VolumesApart(cfg, bot.volume, shadow.volume)))
  {
    assert VolumesDiffer(cfg, bot, shadow) <==> VolumesApart(cfg, bot.volume, shadow.volume);
  }

  lemma LagCounted(cfg: Settings, l: LagCounts, bot: Observed, shadow: Observed)
    ensures var t := CountLag(cfg, l, LagOf(bot, shadow));
      var lag := if bot.receivedAtMs > shadow.receivedAtMs
        then bot.receivedAtMs - shadow.receivedAtMs else shadow.receivedAtMs - bot.receivedAtMs;
      && t.samples == l.samples + 1 && t.total == l.total + lag
      && t.min == (if l.samples == 0 || lag < l.min then lag else l.min)
      && t.max == (if lag > l.max then lag else l.max)
      && t.late == l.late + One(lag > cfg.lagWarnMs && lag > 0)
  {
  }

  /** Two constructed events of one key are counted by their fields; names agree unless one shifts. */
  lemma PairCounts(cfg: Settings, s: Stats, bot: Observed, shadow: Observed)
    requires Built(bot) && Built(shadow) && bot.key == shadow.key
    ensures CountsPair(cfg, s, CompareStats(cfg, s, bot, shadow), bot, shadow)
    ensures !Shifts(bot.event.exchange, shadow.event.exchange) && !Shifts(shadow.event.exchange, bot.event.exchange) ==>
      bot.event.symbol == shadow.event.symbol
  {
    hide Built, IdentityMismatches, IdentityReasons, PartialPair, Shifts, PriceDiffs, PricesApart, Bump;
    PairOfOneKey(bot, shadow);
    PricesAreApart(cfg, bot.event.candle, shadow.event.candle);
    assert VolumesDiffer(cfg, bot, shadow) <==> VolumesApart(cfg, bot.volume, shadow.volume);
    VolumeCounted(cfg, s.volume, bot, shadow);
    LagCounted(cfg, s.lag, bot, shadow);
    hide VolumesDiffer, VolumesApart, CountVolume, CountLag, LagOf;
    var c := CompareFields(cfg, bot, shadow);
    var prices := PriceDiffs(cfg, bot.event.candle, shadow.event.candle);
    assert c.mismatches != {} <==>
      bot.event.symbol != shadow.event.symbol
      || (bot.event.isFinal && (prices != {} || VolumesDiffer(cfg, bot, shadow)));
  }

  /** The reports of one side, in order. */
  function Reported(rs: seq<Report>, side: Side): seq<Entry<Observed>>
    decreases |rs|
  {
    if rs == [] then []
    else
      var last := rs[|rs| - 1];
      Reported(rs[..|rs| - 1], side) + if last.side == side then [Entry(last.o.key, last.o)] else []
  }

  /** The finals of one transport, by candle. */
  function FinalsReported(rs: seq<Report>, t: Transport): seq<Entry<bool>>
    decreases |rs|
  {
    if rs == [] then []
    else
      var o := rs[|rs| - 1].o;
      FinalsReported(rs[..|rs| - 1], t)
      + if o.transport == t && o.event.isFinal then [Entry(o.candleKey, true)] else []
  }

  lemma {:induction false} RunSnoc(cfg: Settings, st: Store, rs: seq<Report>, r: Report)
    ensures Run(cfg, st, rs + [r]) == Record(cfg, Run(cfg, st, rs), r.side, r.o)
    decreases |rs|
  {
    hide Record;
    if rs == [] {
      assert rs + [r] == [r] && [r][1..] == [];
    } else {
      assert (rs + [r])[1..] == rs[1..] + [r];
      RunSnoc(cfg, Record(cfg, st, rs[0].side, rs[0].o), rs[1..], r);
    }
  }

  /** The memories of a store are the insertions of its run. */
  ghost predicate IsFiled(cfg: Settings, st: Store, rs: seq<Report>) {
    && st.maps.bot == Filed(Reported(rs, Bot), Limit(cfg))
    && st.maps.shadow == Filed(Reported(rs, Shadow), Limit(cfg))
    && forall t :: FinalsOf(st.finalSeen, t) == Filed(FinalsReported(rs, t), Limit(cfg))
  }

  lemma FiledOneMore<V>(ws: seq<Entry<V>>, w: Entry<V>, limit: nat)
    requires limit > 0
    ensures Filed(ws + [w], limit) == Remember(Filed(ws, limit), w.key, w.value, limit)
  {
    hide Remember;
    assert (ws + [w])[..|ws|] == ws;
  }

  lemma RecordFiles(cfg: Settings, st: Store, rs: seq<Report>, r: Report)
    requires IsFiled(cfg, st, rs)
    ensures IsFiled(cfg, Record(cfg, st, r.side, r.o), rs + [r])
  {
    hide Filed, RecordMaps, RecordStats, RecordFinals, FinalsOf;
    RecordFilesSide(st.maps, rs, r, Bot, Limit(cfg));
    RecordFilesSide(st.maps, rs, r, Shadow, Limit(cfg));
    forall t
      ensures FinalsOf(RecordFinals(st.finalSeen, r.o, Limit(cfg)), t) == Filed(FinalsReported(rs + [r], t), Limit(cfg))
    {
      RecordFilesFinals(st.finalSeen, rs, r, t, Limit(cfg));
    }
  }

  lemma RecordFilesSide(m: Maps, rs: seq<Report>, r: Report, side: Side, limit: nat)
    requires limit > 0 && Own(m, side) == Filed(Reported(rs, side), limit)
    ensures Own(RecordMaps(m, r.side, r.o, limit), side) == Filed(Reported(rs + [r], side), limit)
  {
    hide Remember, Filed, PendingAfter;
    assert (rs + [r])[..|rs|] == rs;
    if r.side == side {
      FiledOneMore(Reported(rs, side), Entry(r.o.key, r.o), limit);
    } else {
      assert Reported(rs + [r], side) == Reported(rs, side);
    }
  }

  lemma RecordFilesFinals(m: FinalMemory, rs: seq<Report>, r: Report, t: Transport, limit: nat)
    requires limit > 0 && FinalsOf(m, t) == Filed(FinalsReported(rs, t), limit)
    ensures FinalsOf(RecordFinals(m, r.o, limit), t) == Filed(FinalsReported(rs + [r], t), limit)
  {
    hide Remember, Filed;
    assert (rs + [r])[..|rs|] == rs;
    if r.o.transport == t && r.o.event.isFinal {
      FiledOneMore(FinalsReported(rs, t), Entry(r.o.candleKey, true), limit);
    } else {
      assert FinalsReported(rs + [r], t) == FinalsReported(rs, t);
    }
  }

  lemma {:induction false} RunFiles(cfg: Settings, rs: seq<Report>)
    ensures IsFiled(cfg, Run(cfg, NewStore(), rs), rs)
    decreases |rs|
  {
    hide Record, Limit;
    if rs == [] {
      assert IsFiled(cfg, NewStore(), []);
    } else {
      var front, r := rs[..|rs| - 1], rs[|rs| - 1];
      assert rs == front + [r];
      hide IsFiled, Run;
      RunFiles(cfg, front);
      RunSnoc(cfg, NewStore(), front, r);
      RecordFiles(cfg, Run(cfg, NewStore(), front), front, r);
    }
  }

  /** What a memory of this size still holds under a key: nothing once limit other keys were inserted since. */
  function StillHeld<V>(ws: seq<Entry<V>>, k: string, limit: nat): Option<V> {
    if |Since(ws, k)| < limit then LastValue(ws, k) else None
  }

  lemma HeldWasLast<V>(ws: seq<Entry<V>>, k: string, limit: nat)
    ensures StillHeld(ws, k, limit).Some? ==> StillHeld(ws, k, limit) == LastValue(ws, k)
  {
  }

  lemma HeldIffFiled<V>(ws: seq<Entry<V>>, k: string, limit: nat)
    requires limit > 0
    ensures var m := Filed(ws, limit);
      match StillHeld(ws, k, limit) case None => k !in m.at case Some(v) => k in m.at && m.at[k] == v
  {
    hide Filed, Tells, Since;
    FiledHoldsLatest(ws, limit);
  }

  /** A report without counterpart is counted as missing unless it is pending already, and compares nothing. */
  predicate CountsMissing(s: Stats, t: Stats, side: Side, pending: bool) {
    && t.missingShadow == s.missingShadow + One(side == Bot && !pending)
    && t.missingBot == s.missingBot + One(side == Shadow && !pending)
    && t.compared == s.compared && t.verdicts == s.verdicts && t.volume == s.volume && t.drift == s.drift
    && t.lag == s.lag && CountOf(t.reasons, OhlcDiff) == CountOf(s.reasons, OhlcDiff)
  }

  predicate IsPending(m: Maps, side: Side, k: string) {
    if side == Bot then k in m.missingShadow.at else k in m.missingBot.at
  }

  lemma OrderingCounts(s: Stats, side: Side, finals: Ordered<bool>, o: Observed)
    requires Built(o)
    ensures var t := OrderingStats(Seen(s, side), finals, o);
      && t.botSeen == s.botSeen + One(side == Bot) && t.shadowSeen == s.shadowSeen + One(side == Shadow)
      && t.duplicateFinal == s.duplicateFinal + One(o.event.isFinal && o.candleKey in finals.at)
      && t.latePartial == s.latePartial + One(!o.event.isFinal && o.candleKey in finals.at)
      && t.missingShadow == s.missingShadow && t.missingBot == s.missingBot
      && t.compared == s.compared && t.verdicts == s.verdicts && t.volume == s.volume && t.drift == s.drift
      && t.lag == s.lag && CountOf(t.reasons, OhlcDiff) == CountOf(s.reasons, OhlcDiff)
  {
    hide CountOf, Bump;
  }

  lemma LastIsConstructed(rs: seq<Report>, r: Report)
    requires Constructed(rs + [r]) && ProperTransports(rs + [r])
    ensures Built(r.o) && (r.side == Bot <==> r.o.transport == BotHttp)
    ensures Constructed(rs) && ProperTransports(rs)
  {
    hide Built;
    assert (rs + [r])[|rs|] == r;
    forall x | x in rs ensures x in rs + [r] {
    }
  }

  /** What a side holds under a key is one of its reports. */
  lemma {:induction false} LastWasReported(rs: seq<Report>, side: Side, k: string)
    requires Constructed(rs) && ProperTransports(rs)
    ensures var v := LastValue(Reported(rs, side), k);
      v.Some? ==> Built(v.value) && v.value.key == k && (side == Bot <==> v.value.transport == BotHttp)
    decreases |rs|
  {
    hide Built;
    if rs != [] {
      var front, last := rs[..|rs| - 1], rs[|rs| - 1];
      assert rs == front + [last];
      LastIsConstructed(front, last);
      LastWasReported(front, side, k);
      if last.side == side {
        OneMore(Reported(front, side), Entry(last.o.key, last.o), k);
      } else {
        assert Reported(rs, side) == Reported(front, side);
      }
    }
  }

  lemma CompareKeepsRest(cfg: Settings, s: Stats, bot: Observed, shadow: Observed)
    ensures var t := CompareStats(cfg, s, bot, shadow);
      && t.botSeen == s.botSeen && t.shadowSeen == s.shadowSeen && t.duplicateFinal == s.duplicateFinal
      && t.latePartial == s.latePartial && t.missingBot == s.missingBot && t.missingShadow == s.missingShadow
  {
    hide CompareFields, CountVerdict, CountVolume, CountDrift, CountLag, Bump;
  }

  lemma SameStart(cfg: Settings, s: Stats, s': Stats, t: Stats, bot: Observed, shadow: Observed)
    requires CountsPair(cfg, s', t, bot, shadow)
    requires s'.compared == s.compared && s'.verdicts == s.verdicts && s'.volume == s.volume && s'.drift == s.drift
    requires s'.lag == s.lag && CountOf(s'.reasons, OhlcDiff) == CountOf(s.reasons, OhlcDiff)
    ensures CountsPair(cfg, s, t, bot, shadow)
  {
    hide PricesApart, VolumesApart, CountOf;
  }

  lemma MissingCounts(s: Stats, m: Maps, side: Side, o: Observed)
    requires side == Bot <==> o.transport == BotHttp
    ensures var t := MissingStats(s, m.missingBot, m.missingShadow, o);
      && CountsMissing(s, t, side, IsPending(m, side, o.key))
      && t.botSeen == s.botSeen && t.shadowSeen == s.shadowSeen && t.duplicateFinal == s.duplicateFinal
      && t.latePartial == s.latePartial
  {
    hide Bump, CountOf;
  }

  /**
    What one more report counts, in terms of everything reported before, with any eviction: a duplicate or
    late report where its transport still remembers a final of the candle; then the fields of the pair,
    where the other side still holds the key; and a missing counterpart otherwise.
   */
  lemma NextReport(cfg: Settings, rs: seq<Report>, r: Report)
    requires Constructed(rs + [r]) && ProperTransports(rs + [r])
    ensures var st, t := Run(cfg, NewStore(), rs), Run(cfg, NewStore(), rs + [r]).stats;
      var s, finalSeen := st.stats, StillHeld(FinalsReported(rs, r.o.transport), r.o.candleKey, Limit(cfg)).Some?;
      && t.botSeen == s.botSeen + One(r.side == Bot) && t.shadowSeen == s.shadowSeen + One(r.side == Shadow)
      && t.duplicateFinal == s.duplicateFinal + One(r.o.event.isFinal && finalSeen)
      && t.latePartial == s.latePartial + One(!r.o.event.isFinal && finalSeen)
      && match StillHeld(Reported(rs, if r.side == Bot then Shadow else Bot), r.o.key, Limit(cfg))
         case None => CountsMissing(s, t, r.side, IsPending(st.maps, r.side, r.o.key))
         case Some(other) =>
           && (if r.side == Bot then CountsPair(cfg, s, t, r.o, other) else CountsPair(cfg, s, t, other, r.o))
           && t.missingShadow == s.missingShadow && t.missingBot == s.missingBot
  {
    hide Built, CompareStats, CountsPair, Filed, StillHeld, RecordMaps, RecordFinals, Run, Reported, FinalsReported,
         OrderingStats, CountOf, Bump;
    var st := Run(cfg, NewStore(), rs);
    RunSnoc(cfg, NewStore(), rs, r);
    RunFiles(cfg, rs);
    LastIsConstructed(rs, r);
    HeldIffFiled(FinalsReported(rs, r.o.transport), r.o.candleKey, Limit(cfg));
    HeldIffFiled(Reported(rs, if r.side == Bot then Shadow else Bot), r.o.key, Limit(cfg));
    var finals := FinalsOf(st.finalSeen, r.o.transport);
    OrderingCounts(st.stats, r.side, finals, r.o);
    var s1 := OrderingStats(Seen(st.stats, r.side), finals, r.o);
    var other := Other(st.maps, r.side);
    if r.o.key in other.at {
      var bot, shadow := BotOf(other.at[r.o.key], r.o), ShadowOf(other.at[r.o.key], r.o);
      LastWasReported(rs, if r.side == Bot then Shadow else Bot, r.o.key);
      HeldWasLast(Reported(rs, if r.side == Bot then Shadow else Bot), r.o.key, Limit(cfg));
      PairCounts(cfg, s1, bot, shadow);
      CompareKeepsRest(cfg, s1, bot, shadow);
      SameStart(cfg, st.stats, s1, CompareStats(cfg, s1, bot, shadow), bot, shadow);
    } else {
      MissingCounts(s1, st.maps, r.side, r.o);
    }
  }
}
