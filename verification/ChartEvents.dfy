/**
  Candle events, the keys derived from them, and their two decoders.

  An ingest process turns an event into a broker payload (chart_broker_shadow.py).  The live gateway
  (chart_nats_active_gateway.py) and the durable storage worker (chart_nats_final_durable.py) decode
  that payload independently.  The lemmas say when the keys identify an event, and what survives each
  of the two decoders.
 */
module ChartEvents {
  import opened Options
  import opened PyText

  datatype EventType = Partial | Final | Reconcile

  function TypeName(t: EventType): (s: string)
    ensures ':' !in s && s != "" && |s| <= 9
  {
    match t
    case Partial => "partial"
    case Final => "final"
    case Reconcile => "reconcile"
  }

  // ----- Untyped values, as a payload carries them -----

  /** A scalar of a decoded payload.  A missing key reads as JNull. */
  datatype Json = JNull | JBool(b: bool) | JInt(i: int) | JReal(r: real) | JStr(s: string)

  /** Python's conversions between floats and text, which are not part of this model. */
  datatype FloatText = FloatText(parse: string -> Option<real>, show: real -> string)

  predicate Truthy(j: Json) {
    match j
    case JNull => false
    case JBool(b) => b
    case JInt(i) => i != 0
    case JReal(r) => r != 0.0
    case JStr(s) => s != ""
  }

  function Or(j: Json, fallback: Json): Json {
    if Truthy(j) then j else fallback
  }

  function Text(j: Json, ft: FloatText): string {
    match j
    case JNull => "None"
    case JBool(b) => if b then "True" else "False"
    case JInt(i) => Str(i)
    case JReal(r) => ft.show(r)
    case JStr(s) => s
  }

  /** Python's int; a float is truncated towards zero. */
  function ToInt(j: Json): (r: Option<int>)
    ensures j.JReal? && j.r >= 0.0 ==> r.Some? && j.r - 1.0 < r.value as real <= j.r
    ensures j.JReal? && j.r < 0.0 ==> r.Some? && j.r <= r.value as real < j.r + 1.0
  {
    match j
    case JNull => None
    case JBool(b) => Some(if b then 1 else 0)
    case JInt(i) => Some(i)
    case JReal(r) => Some(if r >= 0.0 then r.Floor else -((-r).Floor))
    case JStr(s) => ParseInt(s)
  }

  function ToFloat(j: Json, ft: FloatText): Option<real> {
    match j
    case JNull => None
    case JBool(b) => Some(if b then 1.0 else 0.0)
    case JInt(i) => Some(i as real)
    case JReal(r) => Some(r)
    case JStr(s) => ft.parse(s)
  }

  function OptionalFloat(j: Json, ft: FloatText): Option<real> {
    if j == JNull || j == JStr("") then None else ToFloat(j, ft)
  }

  function OptReal(v: Option<real>): Json {
    match v
    case None => JNull
    case Some(r) => JReal(r)
  }

  function OptInt(v: Option<int>): Json {
    match v
    case None => JNull
    case Some(i) => JInt(i)
  }

  // ----- Candles -----

  /** A candle dictionary as received; only for volume does a missing key differ from a null. */
  datatype CandleDict = CandleDict(
    start: Json, end: Json, open: Json, high: Json, low: Json, close: Json,
    confirm: Json, volume: Option<Json>, turnover: Json)

  datatype Candle = Candle(
    start: int, end: int, open: real, high: real, low: real, close: real,
    confirm: bool, volume: Option<real>)

  function VolumeOf(c: CandleDict): Json {
    match c.volume
    case None => JNull
    case Some(v) => v
  }

  /** The shared normalizer: every required field must convert, and volume is dropped if it does not. */
  function Normalize(c: CandleDict, isFinal: Option<bool>, ft: FloatText): Option<Candle> {
    var confirm := match isFinal case None => Truthy(c.confirm) case Some(b) => b;
    match (ToInt(c.start), ToInt(c.end), ToFloat(c.open, ft), ToFloat(c.high, ft), ToFloat(c.low, ft),
           ToFloat(c.close, ft))
    case (Some(start), Some(end), Some(open), Some(high), Some(low), Some(close)) =>
      Some(Candle(start, end, open, high, low, close, confirm, OptionalFloat(VolumeOf(c), ft)))
    case _ => None
  }

  function AsDict(c: Candle): CandleDict {
    CandleDict(
      JInt(c.start), JInt(c.end), JReal(c.open), JReal(c.high), JReal(c.low), JReal(c.close),
      JBool(c.confirm), match c.volume case None => None case Some(v) => Some(JReal(v)), JNull)
  }

  // ----- Events -----

  datatype LiveEvent = LiveEvent(
    eventType: EventType, exchange: string, symbol: string, tf: int, candle: Candle,
    isFinal: bool, source: string, sourceSeq: Option<int>, reason: Option<string>,
    emittedAtMs: int, exchangeTs: Option<int>)

  /** What the event constructor guarantees of every event that exists. */
  predicate WellFormed(e: LiveEvent) {
    && e.isFinal == (e.eventType != Partial)
    && e.candle.confirm == e.isFinal
    && e.exchange != "" && Lower(e.exchange) == e.exchange
    && Upper(e.symbol) == e.symbol && Trim(e.symbol)
  }

  /** The constructor: it fails on a bad candle or when type and final flag disagree. */
  function MakeEvent(
      t: EventType, exchange: string, symbol: string, tf: int, candle: CandleDict, isFinal: bool,
      source: string, sourceSeq: Option<int>, reason: Option<string>, emittedAtMs: int,
      exchangeTs: Option<int>, ft: FloatText): (r: Option<LiveEvent>)
    ensures r.Some? <==> isFinal == (t != Partial) && Normalize(candle, Some(isFinal), ft).Some?
    ensures r.Some? ==> WellFormed(r.value) && r.value.eventType == t
    ensures r.Some? && exchange == "" ==> r.value.exchange == "bybit"
    ensures r.Some? && source == "" ==> r.value.source == "chart_ingest_active"
  {
    match Normalize(candle, Some(isFinal), ft)
    case None => None
    case Some(c) =>
      if isFinal != (t != Partial) then None
      else
        LowerTwice(if exchange == "" then "bybit" else exchange);
        UpperTwice(symbol);
        UpperOfStrip(Upper(symbol));
        StripTrims(Upper(symbol));
        Some(LiveEvent(
               t, Lower(if exchange == "" then "bybit" else exchange), Strip(Upper(symbol)), tf, c,
               isFinal, if source == "" then "chart_ingest_active" else source, sourceSeq, reason,
               emittedAtMs, exchangeTs))
  }

  lemma UpperTwice(s: string)
    ensures Upper(Upper(s)) == Upper(s)
  {
  }

  // ----- Keys -----

  function CandleKeyOf(exchange: string, symbol: string, tf: int, bar: int): string {
    exchange + ":" + symbol + ":" + Str(tf) + ":" + Str(bar)
  }

  function CandleKey(e: LiveEvent): string {
    CandleKeyOf(e.exchange, e.symbol, e.tf, e.candle.start)
  }

  function WithType(candleKey: string, t: EventType): string {
    candleKey + ":" + TypeName(t)
  }

  function IdempotencyKey(e: LiveEvent): string {
    WithType(CandleKey(e), e.eventType)
  }

  lemma TypeNamesDiffer(a: EventType, b: EventType)
    requires TypeName(a) == TypeName(b)
    ensures a == b
  {
    assert TypeName(a)[0] == TypeName(b)[0];
  }

  lemma WithTypeInjective(k1: string, t1: EventType, k2: string, t2: EventType)
    requires WithType(k1, t1) == WithType(k2, t2)
    ensures k1 == k2 && t1 == t2
  {
    LastPieceForced(k1, TypeName(t1), k2, TypeName(t2), ':');
    TypeNamesDiffer(t1, t2);
  }

  /**
    Equal candle keys always force equal interval and bar time, whatever the exchange and symbol
    contain; only the border between exchange and symbol can shift.
   */
  lemma CandleKeyForces(x1: string, s1: string, tf1: int, b1: int, x2: string, s2: string, tf2: int, b2: int)
    requires CandleKeyOf(x1, s1, tf1, b1) == CandleKeyOf(x2, s2, tf2, b2)
    ensures tf1 == tf2 && b1 == b2 && x1 + ":" + s1 == x2 + ":" + s2
    ensures ':' !in x1 && ':' !in x2 ==> x1 == x2 && s1 == s2
    ensures ':' !in s1 && ':' !in s2 ==> x1 == x2 && s1 == s2
  {
    var p1, p2 := x1 + ":" + s1, x2 + ":" + s2;
    LastPieceForced(p1 + ":" + Str(tf1), Str(b1), p2 + ":" + Str(tf2), Str(b2), ':');
    LastPieceForced(p1, Str(tf1), p2, Str(tf2), ':');
    ParseStr(b1); ParseStr(b2); ParseStr(tf1); ParseStr(tf2);
    if ':' !in x1 && ':' !in x2 {
      FirstPieceForced(x1, s1, x2, s2, ':');
    }
    if ':' !in s1 && ':' !in s2 {
      LastPieceForced(x1, s1, x2, s2, ':');
    }
  }

  /**
    The longer exchange name can be read as the shorter one, a colon, and the beginning of a symbol. It
    takes a lower-case name whose part after the colon is upper-case too, such as one ending in digits.
   */
  predicate Shifts(shorter: string, longer: string) {
    && |shorter| < |longer| && longer[..|shorter|] == shorter && longer[|shorter|] == ':'
    && var rest := longer[|shorter| + 1..];
       Upper(rest) == rest && (rest == "" || !IsSpace(rest[0]))
  }

  lemma ColonFreeNeverShifts(x1: string, x2: string)
    requires ':' !in x2
    ensures !Shifts(x1, x2)
  {
    assert |x1| < |x2| ==> x2[|x1|] in x2;
  }

  /** When the border between exchange and symbol can be read in two places, the exchange names shift. */
  lemma SharedPrefixShifts(x1: string, s1: string, x2: string, s2: string)
    requires x1 + ":" + s1 == x2 + ":" + s2 && |x1| < |x2|
    requires Upper(s1) == s1 && Trim(s1)
    ensures Shifts(x1, x2)
  {
    var p := x1 + ":" + s1;
    var rest := x2[|x1| + 1..];
    assert p[..|x1|] == x1 && p[..|x2|] == x2;
    assert p[|x1|] == ':' && p[|x1| + 1..] == s1;
    assert s1 == rest + ":" + s2 by {
      assert (x2 + ":" + s2)[|x1| + 1..] == rest + ":" + s2;
    }
    assert forall i :: 0 <= i < |rest| ==> rest[i] == s1[i] == Upper(s1)[i];
    assert Upper(rest) == rest;
  }

  /**
    Two events with one idempotency key agree on type, interval, bar and flags, and on exchange and symbol
    too unless one exchange name shifts into the other; without a colon in the names it never does.
   */
  lemma IdempotencyKeyIdentifies(a: LiveEvent, b: LiveEvent)
    requires WellFormed(a) && WellFormed(b) && IdempotencyKey(a) == IdempotencyKey(b)
    ensures a.eventType == b.eventType && a.tf == b.tf && a.candle.start == b.candle.start
    ensures a.isFinal == b.isFinal && a.candle.confirm == b.candle.confirm
    ensures !Shifts(a.exchange, b.exchange) && !Shifts(b.exchange, a.exchange) ==>
      a.exchange == b.exchange && a.symbol == b.symbol
    ensures ':' !in a.exchange && ':' !in b.exchange ==> a.exchange == b.exchange && a.symbol == b.symbol
  {
    WithTypeInjective(CandleKey(a), a.eventType, CandleKey(b), b.eventType);
    CandleKeyForces(a.exchange, a.symbol, a.tf, a.candle.start, b.exchange, b.symbol, b.tf, b.candle.start);
    var p := a.exchange + ":" + a.symbol;
    if |a.exchange| < |b.exchange| {
      SharedPrefixShifts(a.exchange, a.symbol, b.exchange, b.symbol);
    } else if |b.exchange| < |a.exchange| {
      SharedPrefixShifts(b.exchange, b.symbol, a.exchange, a.symbol);
    } else {
      assert p[..|a.exchange|] == a.exchange && p[..|b.exchange|] == b.exchange;
      assert p[|a.exchange| + 1..] == a.symbol && p[|b.exchange| + 1..] == b.symbol;
    }
  }

  /** Two events of different exchange or symbol under one idempotency key. */
  predicate Collide(a: LiveEvent, b: LiveEvent) {
    && WellFormed(a) && WellFormed(b) && IdempotencyKey(a) == IdempotencyKey(b)
    && (a.exchange != b.exchange || a.symbol != b.symbol)
  }

  function PartialOf(exchange: string, symbol: string): LiveEvent {
    LiveEvent(Partial, exchange, symbol, 15, Candle(0, 0, 1.0, 1.0, 1.0, 1.0, false, None),
              false, "", None, None, 0, None)
  }

  /** Two names that shift have colliding partials, of the symbol S and one that ends in :S. */
  lemma ShiftCollides(x1: string, x2: string) returns (a: LiveEvent, b: LiveEvent)
    requires x1 != "" && Lower(x1) == x1 && Lower(x2) == x2 && Shifts(x1, x2)
    ensures Collide(a, b) && a.exchange == x1 && b.exchange == x2
    ensures a.symbol == x2[|x1| + 1..] + ":S" && b.symbol == "S" && a.symbol != b.symbol
    ensures a.eventType == b.eventType == Partial
  {
    var rest := x2[|x1| + 1..];
    a, b := PartialOf(x1, rest + ":S"), PartialOf(x2, "S");
    assert x2 == x1 + ":" + rest;
    assert x1 + ":" + (rest + ":S") == x2 + ":" + "S";
    forall i | 0 <= i < |rest + ":S"|
      ensures UpperChar((rest + ":S")[i]) == (rest + ":S")[i]
    {
      if i < |rest| {
        assert Upper(rest)[i] == rest[i];
      }
    }
    assert Upper(rest + ":S") == rest + ":S" && Upper("S") == "S";
  }

  lemma CollisionShifts(a: LiveEvent, b: LiveEvent)
    requires Collide(a, b)
    ensures Shifts(a.exchange, b.exchange) || Shifts(b.exchange, a.exchange)
  {
    hide Shifts;
    IdempotencyKeyIdentifies(a, b);
  }

  lemma CollisionIsSymmetric(a: LiveEvent, b: LiveEvent)
    requires Collide(a, b)
    ensures Collide(b, a)
  {
  }

  /** Some events of two exchanges collide exactly when one name shifts into the other. */
  lemma ExchangesCollideIff(x1: string, x2: string)
    requires x1 != "" && x2 != "" && Lower(x1) == x1 && Lower(x2) == x2
    ensures (exists a, b :: Collide(a, b) && a.exchange == x1 && b.exchange == x2) <==> Shifts(x1, x2) || Shifts(x2, x1)
  {
    hide Collide, Shifts;
    if a, b :| Collide(a, b) && a.exchange == x1 && b.exchange == x2 {
      CollisionShifts(a, b);
    }
    if Shifts(x1, x2) {
      var a, b := ShiftCollides(x1, x2);
    } else if Shifts(x2, x1) {
      var b, a := ShiftCollides(x2, x1);
      CollisionIsSymmetric(b, a);
    }
  }

  /** For instance the exchanges x and x:1. */
  lemma ColonsCanCollide()
    ensures Collide(PartialOf("x:1", "2"), PartialOf("x", "1:2"))
  {
    assert "x:1" + ":" + "2" == "x" + ":" + "1:2";
    assert Lower("x:1") == "x:1" && Lower("x") == "x" && Upper("2") == "2" && Upper("1:2") == "1:2";
  }

  // ----- The broker payload -----

  const SCHEMA_VERSION := "chart_candle.v1"

  /** The payload fields that some consumer reads.  None for tf is a missing key, for candle a non-dictionary. */
  datatype Payload = Payload(
    schemaVersion: Json, eventType: Json, isFinal: Json, exchange: Json, symbol: Json,
    tf: Option<Json>, interval: Json, barTime: Json, startTime: Json, endTime: Json,
    open: Json, high: Json, low: Json, close: Json, volume: Json, turnover: Json, confirm: Json,
    candle: Option<CandleDict>, candleKey: Json, idempotencyKey: Json, eventId: Json,
    sourceSeq: Json, emittedAtMs: Json, exchangeTs: Json, reason: Json, publishTsMs: Json)

  function IntervalToken(tf: int): string {
    if tf == 1440 then "D" else Str(tf)
  }

  /** The payload that the publisher writes for one attempt. */
  function BuildPayload(e: LiveEvent, volume: Option<real>, publishTsMs: int): Payload {
    var dict := AsDict(e.candle);
    var candle := if volume.Some? then dict.(volume := Some(JReal(volume.value))) else dict;
    Payload(
      JStr(SCHEMA_VERSION), JStr(TypeName(e.eventType)), JBool(e.isFinal), JStr(e.exchange), JStr(e.symbol),
      Some(JInt(e.tf)), JStr(IntervalToken(e.tf)), JInt(e.candle.start), JInt(e.candle.start), JInt(e.candle.end),
      JReal(e.candle.open), JReal(e.candle.high), JReal(e.candle.low), JReal(e.candle.close),
      OptReal(volume), JNull, JBool(e.candle.confirm),
      Some(candle), JStr(CandleKey(e)), JStr(IdempotencyKey(e)), JNull,
      OptInt(e.sourceSeq), JInt(e.emittedAtMs), OptInt(e.exchangeTs), JNull, JInt(publishTsMs))
  }

  /** The volume a consumer is meant to see: the publisher's, or else the candle's own. */
  function SentVolume(e: LiveEvent, volume: Option<real>): Option<real> {
    if volume.Some? then volume else e.candle.volume
  }

  /** The broker-side message id: stable across retries for a final or reconcile event. */
  function MessageId(p: Payload, ft: FloatText): string {
    var base := Text(Or(Or(p.idempotencyKey, p.candleKey), JStr("")), ft);
    var t := Text(Or(p.eventType, JStr("")), ft);
    if t in {"final", "reconcile"} && base != "" then base
    else if base != "" then
      base + ":" + Text(Or(p.sourceSeq, JStr("")), ft) + ":" + Text(Or(p.emittedAtMs, JStr("")), ft)
      + ":" + Text(Or(p.publishTsMs, JStr("")), ft)
    else Text(p.publishTsMs, ft)
  }

  lemma CriticalMessageId(e: LiveEvent, volume: Option<real>, ts: int, ft: FloatText)
    requires e.eventType != Partial
    ensures MessageId(BuildPayload(e, volume, ts), ft) == IdempotencyKey(e)
  {
    var p := BuildPayload(e, volume, ts);
    assert p.idempotencyKey == JStr(IdempotencyKey(e)) && p.eventType == JStr(TypeName(e.eventType));
  }

  /** Retries of one critical event share a message id, and different events never do. */
  lemma CriticalMessageIds(
    a: LiveEvent, b: LiveEvent, va: Option<real>, vb: Option<real>, ta: int, tb: int, ft: FloatText)
    requires WellFormed(a) && WellFormed(b) && a.eventType != Partial && b.eventType != Partial
    ensures MessageId(BuildPayload(a, va, ta), ft) == MessageId(BuildPayload(b, vb, tb), ft)
      <==> CandleKey(a) == CandleKey(b) && a.eventType == b.eventType
  {
    CriticalMessageId(a, va, ta, ft);
    CriticalMessageId(b, vb, tb, ft);
    if IdempotencyKey(a) == IdempotencyKey(b) {
      WithTypeInjective(CandleKey(a), a.eventType, CandleKey(b), b.eventType);
    }
  }

  /** str(n or ""), for an int that may be missing. */
  function IntText(n: Option<int>): string {
    if n.None? || n.value == 0 then "" else Str(n.value)
  }

  lemma PartialMessageId(e: LiveEvent, volume: Option<real>, ts: int, ft: FloatText)
    requires e.eventType == Partial
    ensures MessageId(BuildPayload(e, volume, ts), ft) ==
      IdempotencyKey(e) + ":" + IntText(e.sourceSeq) + ":" + IntText(Some(e.emittedAtMs)) + ":" + IntText(Some(ts))
  {
    hide Str;
    var p := BuildPayload(e, volume, ts);
    assert p.idempotencyKey == JStr(IdempotencyKey(e)) && p.eventType == JStr("partial");
    assert IdempotencyKey(e) != "";
    hide IdempotencyKey;
  }

  lemma IntTexts(m: Option<int>, n: Option<int>)
    ensures ':' !in IntText(m)
    ensures IntText(m) == IntText(n) <==>
      (if m == Some(0) then None else m) == (if n == Some(0) then None else n)
  {
    if m.Some? && n.Some? {
      ParseStr(m.value);
      ParseStr(n.value);
    }
  }

  lemma JoinedForced(a: string, x: string, b: string, y: string)
    requires ':' !in x && ':' !in y
    ensures a + ":" + x == b + ":" + y <==> a == b && x == y
  {
    if a + ":" + x == b + ":" + y {
      LastPieceForced(a, x, b, y, ':');
    }
  }

  /**
    Copies of partials share a message id only when the key, the sequence and both times agree, a zero
    sequence counting as none; so a partial that is published again later is a new message.
   */
  lemma PartialMessageIds(
    a: LiveEvent, b: LiveEvent, va: Option<real>, vb: Option<real>, ta: int, tb: int, ft: FloatText)
    requires a.eventType == Partial && b.eventType == Partial
    ensures MessageId(BuildPayload(a, va, ta), ft) == MessageId(BuildPayload(b, vb, tb), ft) <==>
      && IdempotencyKey(a) == IdempotencyKey(b)
      && (if a.sourceSeq == Some(0) then None else a.sourceSeq)
         == (if b.sourceSeq == Some(0) then None else b.sourceSeq)
      && a.emittedAtMs == b.emittedAtMs && ta == tb
  {
    hide IdempotencyKey, IntText;
    PartialMessageId(a, va, ta, ft);
    PartialMessageId(b, vb, tb, ft);
    IntTexts(a.sourceSeq, b.sourceSeq);
    IntTexts(b.sourceSeq, a.sourceSeq);
    IntTexts(Some(a.emittedAtMs), Some(b.emittedAtMs));
    IntTexts(Some(b.emittedAtMs), Some(a.emittedAtMs));
    IntTexts(Some(ta), Some(tb));
    IntTexts(Some(tb), Some(ta));
    var keyA, keyB := IdempotencyKey(a), IdempotencyKey(b);
    var seqA, seqB := keyA + ":" + IntText(a.sourceSeq), keyB + ":" + IntText(b.sourceSeq);
    JoinedForced(keyA, IntText(a.sourceSeq), keyB, IntText(b.sourceSeq));
    JoinedForced(seqA, IntText(Some(a.emittedAtMs)), seqB, IntText(Some(b.emittedAtMs)));
    JoinedForced(seqA + ":" + IntText(Some(a.emittedAtMs)), IntText(Some(ta)),
                 seqB + ":" + IntText(Some(b.emittedAtMs)), IntText(Some(tb)));
  }

  // ----- The gateway's decoder -----

  const ACTIVE_SOURCE := "chart_ingest_active"

  function TypeOfName(s: string): Option<EventType> {
    if s == "partial" then Some(Partial)
    else if s == "final" then Some(Final)
    else if s == "reconcile" then Some(Reconcile)
    else None
  }

  function SafeInt(j: Json, default: int): int {
    match ToInt(j)
    case None => default
    case Some(i) => i
  }

  function NonZero(i: int): Option<int> {
    if i == 0 then None else Some(i)
  }

  function GatewayCandle(p: Payload): CandleDict {
    match p.candle
    case None =>
      CandleDict(Or(p.barTime, p.startTime), p.endTime, p.open, p.high, p.low, p.close, p.confirm,
                 Some(p.volume), JNull)
    case Some(c) =>
      if c.volume.None? && p.volume != JNull then c.(volume := Some(p.volume)) else c
  }

  function TfOf(p: Payload): Json {
    match p.tf
    case None => JNull
    case Some(j) => j
  }

  function DecodeForGateway(p: Payload, nowMs: int, ft: FloatText): Option<LiveEvent> {
    if Text(Or(p.schemaVersion, JStr("")), ft) != SCHEMA_VERSION then None
    else
      match TypeOfName(Text(Or(p.eventType, JStr("")), ft))
      case None => None
      case Some(t) =>
        var isFinal := t != Partial || Truthy(p.isFinal);
        MakeEvent(
          t, Text(Or(p.exchange, JStr("bybit")), ft), Text(Or(p.symbol, JStr("")), ft),
          SafeInt(Or(TfOf(p), p.interval), 0), GatewayCandle(p), isFinal, ACTIVE_SOURCE,
          NonZero(SafeInt(p.sourceSeq, 0)),
          if t == Reconcile then Some(Text(Or(p.reason, JStr("broker_reconcile")), ft)) else None,
          SafeInt(p.emittedAtMs, nowMs), NonZero(SafeInt(p.exchangeTs, 0)), ft)
  }

  // ----- The durable worker's decoder -----

  datatype DurableEvent = DurableEvent(
    eventId: string, eventType: EventType, exchange: string, symbol: string, intervalMin: int,
    barTimeMs: int, candleKey: string, idempotencyKey: string, candle: Candle,
    volume: Option<real>, turnover: Option<real>)

  function SafeBool(j: Json): bool {
    match j
    case JStr(s) => Lower(Strip(s)) in {"1", "true", "yes", "on"}
    case _ => Truthy(j)
  }

  function IntervalMinutes(j: Json, ft: FloatText): Option<int> {
    var token := Upper(Strip(Text(Or(j, JStr("")), ft)));
    if token == "D" then Some(1440) else ParseInt(token)
  }

  /** A non-empty identifier of at most 190 characters. */
  function BoundedId(j: Json, ft: FloatText): Option<string> {
    var text := Strip(Text(Or(j, JStr("")), ft));
    if text == "" || |text| > 190 then None else Some(text)
  }

  function DurableCandle(p: Payload): CandleDict {
    match p.candle
    case Some(c) => c
    case None =>
      CandleDict(Or(p.barTime, p.startTime), p.endTime, p.open, p.high, p.low, p.close, JBool(true), None, JNull)
  }

  function DecodeForStorage(p: Payload, ft: FloatText): Option<DurableEvent> {
    if Text(Or(p.schemaVersion, JStr("")), ft) != SCHEMA_VERSION then None
    else
      match TypeOfName(Lower(Strip(Text(Or(p.eventType, JStr("")), ft))))
      case None => None
      case Some(t) =>
        if t == Partial || !SafeBool(p.isFinal) then None
        else StorageFields(p, t, ft)
  }

  function StorageFields(p: Payload, t: EventType, ft: FloatText): Option<DurableEvent> {
    var exchange := Lower(Strip(Text(Or(p.exchange, JStr("bybit")), ft)));
    var symbol := Upper(Strip(Text(Or(p.symbol, JStr("")), ft)));
    if symbol == "" || |symbol| > 20 then None
    else
      match (IntervalMinutes(if p.tf.Some? then p.tf.value else p.interval, ft),
             Normalize(DurableCandle(p), Some(true), ft))
      case (Some(interval), Some(candle)) =>
        StorageIds(p, t, exchange, symbol, interval, candle, ft)
      case _ => None
  }

  function StorageIds(
    p: Payload, t: EventType, exchange: string, symbol: string, interval: int, candle: Candle,
    ft: FloatText): Option<DurableEvent> {
    match ToInt(Or(Or(p.barTime, p.startTime), JInt(candle.start)))
    case None => None
    case Some(bar) =>
      match BoundedId(Or(p.candleKey, JStr(CandleKeyOf(exchange, symbol, interval, bar))), ft)
      case None => None
      case Some(key) =>
        match BoundedId(Or(p.idempotencyKey, JStr(WithType(key, t))), ft)
        case None => None
        case Some(idem) =>
          match BoundedId(Or(p.eventId, JStr(idem)), ft)
          case None => None
          case Some(id) =>
            Some(DurableEvent(
                   id, t, exchange, symbol, interval, bar, key, idem, candle,
                   OptionalFloat(Or(p.volume, VolumeOf(DurableCandle(p))), ft),
                   OptionalFloat(Or(p.turnover, DurableCandle(p).turnover), ft)))
  }

  // ----- What survives -----

  lemma SafeIntOfOpt(v: Option<int>)
    ensures NonZero(SafeInt(OptInt(v), 0)) == if v == Some(0) then None else v
  {
  }

  /** Every consumer normalizes the candle it was sent to the same candle. */
  lemma SentCandle(e: LiveEvent, volume: Option<real>, publishTsMs: int, ft: FloatText)
    requires WellFormed(e)
    ensures var p := BuildPayload(e, volume, publishTsMs);
      && p.candle.Some?
      && GatewayCandle(p) == p.candle.value == DurableCandle(p)
      && Normalize(p.candle.value, Some(e.isFinal), ft) == Some(e.candle.(volume := SentVolume(e, volume)))
  {
  }

  /** The constructor changes nothing in fields that it has already normalized. */
  lemma RemakeEvent(
    e: LiveEvent, d: CandleDict, c: Candle, seqNo: Option<int>, reason: Option<string>, ts: Option<int>,
    ft: FloatText)
    requires WellFormed(e) && Normalize(d, Some(e.isFinal), ft) == Some(c)
    ensures MakeEvent(e.eventType, e.exchange, e.symbol, e.tf, d, e.isFinal, ACTIVE_SOURCE, seqNo, reason,
      e.emittedAtMs, ts, ft)
      == Some(e.(source := ACTIVE_SOURCE, candle := c, sourceSeq := seqNo, exchangeTs := ts, reason := reason))
  {
    StripTrims(e.symbol);
  }

  lemma SentTf(e: LiveEvent)
    ensures SafeInt(Or(JInt(e.tf), JStr(IntervalToken(e.tf))), 0) == e.tf
  {
    ParseStr(e.tf);
  }

  /**
    Encoding and then decoding in the gateway gives back the same event, except that its source is
    replaced, a reconcile reason is forgotten and a zero sequence or exchange time reads as missing.
   */
  lemma GatewayRoundTrip(e: LiveEvent, volume: Option<real>, publishTsMs: int, nowMs: int, ft: FloatText)
    requires WellFormed(e)
    ensures DecodeForGateway(BuildPayload(e, volume, publishTsMs), nowMs, ft) ==
      Some(e.(source := ACTIVE_SOURCE,
              candle := e.candle.(volume := SentVolume(e, volume)),
              sourceSeq := if e.sourceSeq == Some(0) then None else e.sourceSeq,
              exchangeTs := if e.exchangeTs == Some(0) then None else e.exchangeTs,
              reason := if e.eventType == Reconcile then Some("broker_reconcile") else None))
  {
    var p := BuildPayload(e, volume, publishTsMs);
    SentTf(e);
    SentCandle(e, volume, publishTsMs, ft);
    GatewayDecodes(e, volume, publishTsMs, p, e.candle.(volume := SentVolume(e, volume)), e.tf, nowMs, ft);
  }

  /** The same for a payload in which some fields were left out or replaced, as long as they read alike. */
  lemma GatewayDecodes(
    e: LiveEvent, volume: Option<real>, publishTsMs: int, p: Payload, c: Candle, tf: int, nowMs: int, ft: FloatText)
    requires WellFormed(e)
    requires p == BuildPayload(e, volume, publishTsMs).(candle := p.candle, tf := p.tf, isFinal := p.isFinal)
    requires Normalize(GatewayCandle(p), Some(e.isFinal), ft) == Some(c)
    requires SafeInt(Or(TfOf(p), p.interval), 0) == tf && (e.eventType == Partial ==> !Truthy(p.isFinal))
    ensures DecodeForGateway(p, nowMs, ft) ==
      Some(e.(source := ACTIVE_SOURCE, candle := c, tf := tf,
              sourceSeq := if e.sourceSeq == Some(0) then None else e.sourceSeq,
              exchangeTs := if e.exchangeTs == Some(0) then None else e.exchangeTs,
              reason := if e.eventType == Reconcile then Some("broker_reconcile") else None))
  {
    hide Normalize, GatewayCandle, IntervalToken, CandleKey, IdempotencyKey;
    var reason := if e.eventType == Reconcile then Some("broker_reconcile") else None;
    var seqNo, ts := NonZero(SafeInt(p.sourceSeq, 0)), NonZero(SafeInt(p.exchangeTs, 0));
    TypeOfNameOfType(e.eventType);
    SafeIntOfOpt(e.sourceSeq);
    SafeIntOfOpt(e.exchangeTs);
    RemakeEvent(e.(tf := tf), GatewayCandle(p), c, seqNo, reason, ts, ft);
    assert Text(Or(p.schemaVersion, JStr("")), ft) == SCHEMA_VERSION;
    assert Text(Or(p.exchange, JStr("bybit")), ft) == e.exchange;
    assert Text(Or(p.symbol, JStr("")), ft) == e.symbol;
  }

  lemma TypeOfNameOfType(t: EventType)
    ensures TypeOfName(TypeName(t)) == Some(t)
    ensures Lower(Strip(TypeName(t))) == TypeName(t)
  {
    StripNothing(TypeName(t));
  }

  /** The keys and the numbers of an event, as the consumers are meant to see them. */
  predicate Carries(d: DurableEvent, e: LiveEvent, volume: Option<real>) {
    && d.eventType == e.eventType && d.symbol == e.symbol && d.intervalMin == e.tf
    && d.barTimeMs == e.candle.start
    && d.candle == e.candle.(volume := SentVolume(e, volume))
    && d.volume == SentVolume(e, volume) && d.turnover == None
    && d.idempotencyKey == d.eventId
  }

  lemma KeyEnds(e: LiveEvent)
    ensures Strip(CandleKey(e)) == CandleKey(e) <==> e.exchange == "" || !IsSpace(e.exchange[0])
    ensures Strip(IdempotencyKey(e)) == IdempotencyKey(e) <==> e.exchange == "" || !IsSpace(e.exchange[0])
  {
    var k, i := CandleKey(e), IdempotencyKey(e);
    StripTrims(k);
    StripTrims(i);
    assert k[|k| - 1] == Str(e.candle.start)[|Str(e.candle.start)| - 1];
    assert Str(e.candle.start)[|Str(e.candle.start)| - 1] in Str(e.candle.start);
    assert i[|i| - 1] == TypeName(e.eventType)[|TypeName(e.eventType)| - 1];
  }

  /**
    The storage worker accepts exactly the critical events with a short non-empty symbol, a non-zero
    interval and an id that fits its column, and then reads the same numbers as the gateway.
   */
  lemma StorageRoundTrip(e: LiveEvent, volume: Option<real>, publishTsMs: int, ft: FloatText)
    requires WellFormed(e)
    ensures var r := DecodeForStorage(BuildPayload(e, volume, publishTsMs), ft);
      && (r.Some? <==>
          e.eventType != Partial && 0 < |e.symbol| <= 20 && e.tf != 0
          && |Strip(IdempotencyKey(e))| <= 190 && |Strip(CandleKey(e))| <= 190)
      && (r.Some? ==>
          && Carries(r.value, e, volume)
          && r.value.candleKey == Strip(CandleKey(e))
          && r.value.eventId == Strip(IdempotencyKey(e))
          && r.value.exchange == Strip(e.exchange))
  {
    StorageHeader(e, volume, publishTsMs, ft);
    if e.eventType != Partial {
      StorageFieldsRoundTrip(e, volume, publishTsMs, ft);
    }
  }

  lemma StorageHeader(e: LiveEvent, volume: Option<real>, publishTsMs: int, ft: FloatText)
    requires WellFormed(e)
    ensures var p := BuildPayload(e, volume, publishTsMs);
      DecodeForStorage(p, ft) == if e.eventType == Partial then None else StorageFields(p, e.eventType, ft)
  {
    HeaderReadsBack(BuildPayload(e, volume, publishTsMs), e.eventType, ft);
  }

  lemma HeaderReadsBack(p: Payload, t: EventType, ft: FloatText)
    requires p.schemaVersion == JStr(SCHEMA_VERSION) && p.eventType == JStr(TypeName(t))
    requires p.isFinal == JBool(t != Partial)
    ensures DecodeForStorage(p, ft) == if t == Partial then None else StorageFields(p, t, ft)
  {
    hide StorageFields, Strip, Lower, Upper, TypeOfName;
    TypeOfNameOfType(t);
    assert Text(Or(p.schemaVersion, JStr("")), ft) == SCHEMA_VERSION;
    assert Text(Or(p.eventType, JStr("")), ft) == TypeName(t);
  }

  lemma StorageFieldsRoundTrip(e: LiveEvent, volume: Option<real>, publishTsMs: int, ft: FloatText)
    requires WellFormed(e) && e.eventType != Partial
    ensures var p := BuildPayload(e, volume, publishTsMs);
      StorageFields(p, e.eventType, ft) ==
        if 0 < |e.symbol| <= 20 && e.tf != 0
        then StorageIds(p, e.eventType, Strip(e.exchange), e.symbol, e.tf,
                        e.candle.(volume := SentVolume(e, volume)), ft)
        else None
    ensures var p := BuildPayload(e, volume, publishTsMs);
            var c := e.candle.(volume := SentVolume(e, volume));
      StorageIds(p, e.eventType, Strip(e.exchange), e.symbol, e.tf, c, ft) == SentIds(e, volume, c)
  {
    var p := BuildPayload(e, volume, publishTsMs);
    SentTexts(e, ft);
    IntervalReadsBack(e.tf, ft);
    SentCandle(e, volume, publishTsMs, ft);
    var c := e.candle.(volume := SentVolume(e, volume));
    NonEmptyIds(e);
    IdsReadBack(p, e.eventType, Strip(e.exchange), e.symbol, e.tf, c, CandleKey(e), IdempotencyKey(e), ft);
    assert OptionalFloat(Or(p.volume, VolumeOf(DurableCandle(p))), ft) == SentVolume(e, volume);
  }

  function SentIds(e: LiveEvent, volume: Option<real>, c: Candle): Option<DurableEvent> {
    var key, id := Strip(CandleKey(e)), Strip(IdempotencyKey(e));
    if |key| <= 190 && |id| <= 190
    then Some(DurableEvent(
                id, e.eventType, Strip(e.exchange), e.symbol, e.tf, c.start, key, id, c, SentVolume(e, volume), None))
    else None
  }

  lemma IdsReadBack(
    p: Payload, t: EventType, exchange: string, symbol: string, interval: int, c: Candle, key: string, id: string,
    ft: FloatText)
    requires p.barTime == p.startTime == JInt(c.start)
    requires p.candleKey == JStr(key) && p.idempotencyKey == JStr(id) && p.eventId == JNull
    requires Strip(key) != "" && Strip(id) != ""
    ensures StorageIds(p, t, exchange, symbol, interval, c, ft) ==
      if |Strip(key)| <= 190 && |Strip(id)| <= 190
      then Some(DurableEvent(
        Strip(id), t, exchange, symbol, interval, c.start, Strip(key), Strip(id), c,
        OptionalFloat(Or(p.volume, VolumeOf(DurableCandle(p))), ft),
        OptionalFloat(Or(p.turnover, DurableCandle(p).turnover), ft)))
      else None
  {
    IdReadsBack(key, JStr(CandleKeyOf(exchange, symbol, interval, c.start)), ft);
    IdReadsBack(id, JStr(WithType(Strip(key), t)), ft);
    StripTwice(id);
    IdReadsBack(Strip(id), JNull, ft);
  }

  lemma IdReadsBack(s: string, fallback: Json, ft: FloatText)
    requires Strip(s) != ""
    ensures BoundedId(Or(JStr(s), fallback), ft) == if |Strip(s)| <= 190 then Some(Strip(s)) else None
  {
    assert Strip("") == "";
  }

  lemma SentTexts(e: LiveEvent, ft: FloatText)
    requires WellFormed(e)
    ensures Lower(Strip(Text(Or(JStr(e.exchange), JStr("bybit")), ft))) == Strip(e.exchange)
    ensures Upper(Strip(Text(Or(JStr(e.symbol), JStr("")), ft))) == e.symbol
  {
    LowerOfStrip(e.exchange);
    StripTrims(e.symbol);
  }

  lemma StripTwice(s: string)
    ensures Strip(Strip(s)) == Strip(s)
  {
    StripTrims(s);
    StripTrims(Strip(s));
  }

  lemma IntervalText(tf: int)
    ensures Upper(Strip(Str(tf))) == Str(tf) && Str(tf) != "D"
  {
    var s := Str(tf);
    StripNothing(s);
    assert forall i :: 0 <= i < |s| ==> s[i] in s;
    assert Upper(s) == s;
    assert 'D' in "D" && 'D' !in s by {
      assert "D"[0] == 'D';
    }
  }

  lemma IntervalReadsBack(tf: int, ft: FloatText)
    ensures IntervalMinutes(JInt(tf), ft) == if tf == 0 then None else Some(tf)
  {
    hide Str;
    ParseStr(tf);
    IntervalText(tf);
    if tf == 0 {
      assert Upper(Strip("")) == "";
    }
  }

  lemma LowerOfStrip(s: string)
    requires Lower(s) == s
    ensures Lower(Strip(s)) == Strip(s)
  {
    forall i | 0 <= i < |s| ensures LowerChar(s[i]) == s[i] {
      assert Lower(s)[i] == s[i];
    }
    forall i | 0 <= i < |Strip(s)| ensures LowerChar(Strip(s)[i]) == Strip(s)[i] {
      assert Strip(s)[i] in LStrip(s);
    }
  }

  lemma {:induction false} StripKeeps(s: string, c: char)
    requires c in s && !IsSpace(c)
    ensures c in LStrip(s) && c in RStrip(s)
    decreases |s|
  {
    if IsSpace(s[0]) {
      assert s == [s[0]] + s[1..];
      StripKeeps(s[1..], c);
    }
    if IsSpace(s[|s| - 1]) {
      assert s == s[..|s| - 1] + [s[|s| - 1]];
      StripKeeps(s[..|s| - 1], c);
    }
  }

  lemma NonEmptyIds(e: LiveEvent)
    ensures Strip(CandleKey(e)) != "" && Strip(IdempotencyKey(e)) != ""
  {
    StripKeeps(CandleKey(e), ':');
    StripKeeps(LStrip(CandleKey(e)), ':');
    StripKeeps(IdempotencyKey(e), ':');
    StripKeeps(LStrip(IdempotencyKey(e)), ':');
  }

  /**
    Both consumers of one payload agree on the event, and the storage keys are the event's own keys
    exactly when the exchange does not begin with white space.
   */
  lemma ConsumersAgree(e: LiveEvent, volume: Option<real>, publishTsMs: int, nowMs: int, ft: FloatText)
    requires WellFormed(e)
    ensures var g := DecodeForGateway(BuildPayload(e, volume, publishTsMs), nowMs, ft);
            var stored := DecodeForStorage(BuildPayload(e, volume, publishTsMs), ft);
      stored.Some? ==>
        var d := stored.value;
        && g.Some?
        && g.value.eventType == d.eventType && g.value.symbol == d.symbol && g.value.tf == d.intervalMin
        && g.value.candle == d.candle && g.value.candle.volume == d.volume
        && g.value.candle.start == d.barTimeMs
        && ((CandleKey(g.value) == d.candleKey && IdempotencyKey(g.value) == d.eventId)
            <==> !IsSpace(e.exchange[0]))
  {
    hide DecodeForGateway, DecodeForStorage, BuildPayload;
    GatewayRoundTrip(e, volume, publishTsMs, nowMs, ft);
    StorageRoundTrip(e, volume, publishTsMs, ft);
    KeyEnds(e);
  }

  // ----- What the redundant fields are for -----

  /** The payload without the candle's dictionary, or with one that names no volume. */
  function WithoutDict(p: Payload): Payload {
    p.(candle := None)
  }

  function WithoutDictVolume(p: Payload): Payload
    requires p.candle.Some?
  {
    p.(candle := Some(p.candle.value.(volume := None)))
  }

  /** Without the dictionary, or its volume, the gateway reads the same event, but only the publisher's volume. */
  lemma GatewayReadsFlatFields(e: LiveEvent, volume: Option<real>, publishTsMs: int, nowMs: int, ft: FloatText)
    requires WellFormed(e)
    ensures var p := BuildPayload(e, volume, publishTsMs);
      var g := DecodeForGateway(p, nowMs, ft);
      && g.Some?
      && DecodeForGateway(WithoutDict(p), nowMs, ft) == Some(g.value.(candle := e.candle.(volume := volume)))
      && DecodeForGateway(WithoutDictVolume(p), nowMs, ft) == Some(g.value.(candle := e.candle.(volume := volume)))
  {
    hide DecodeForGateway;
    var p, c := BuildPayload(e, volume, publishTsMs), e.candle.(volume := volume);
    GatewayRoundTrip(e, volume, publishTsMs, nowMs, ft);
    SentTf(e);
    FlatCandle(e, volume, publishTsMs, ft);
    GatewayDecodes(e, volume, publishTsMs, WithoutDict(p), c, e.tf, nowMs, ft);
    GatewayDecodes(e, volume, publishTsMs, WithoutDictVolume(p), c, e.tf, nowMs, ft);
  }

  lemma FlatCandle(e: LiveEvent, volume: Option<real>, publishTsMs: int, ft: FloatText)
    requires WellFormed(e)
    ensures var p, c := BuildPayload(e, volume, publishTsMs), e.candle.(volume := volume);
      && Normalize(GatewayCandle(WithoutDict(p)), Some(e.isFinal), ft) == Some(c)
      && Normalize(GatewayCandle(WithoutDictVolume(p)), Some(e.isFinal), ft) == Some(c)
      && Normalize(DurableCandle(WithoutDict(p)), Some(e.isFinal), ft) == Some(c.(volume := None))
  {
    hide CandleKey, IdempotencyKey, IntervalToken;
  }

  /**
    Without tf the gateway reads the interval token instead, and the event is the same exactly when it is
    not a daily one: the token D is no integer there, and reads as 0.
   */
  lemma GatewayReadsInterval(e: LiveEvent, volume: Option<real>, publishTsMs: int, nowMs: int, ft: FloatText)
    requires WellFormed(e)
    ensures var p := BuildPayload(e, volume, publishTsMs);
      && DecodeForGateway(p.(tf := None), nowMs, ft).Some?
      && (DecodeForGateway(p.(tf := None), nowMs, ft) == DecodeForGateway(p, nowMs, ft) <==> e.tf != 1440)
  {
    hide DecodeForGateway, Normalize, GatewayCandle, SafeInt, Or, CandleKey, IdempotencyKey, IntervalToken;
    var p := BuildPayload(e, volume, publishTsMs);
    GatewayRoundTrip(e, volume, publishTsMs, nowMs, ft);
    SentCandle(e, volume, publishTsMs, ft);
    TokenReads(e, volume, publishTsMs, ft);
    GatewayDecodes(e, volume, publishTsMs, p.(tf := None), e.candle.(volume := SentVolume(e, volume)),
                   if e.tf == 1440 then 0 else e.tf, nowMs, ft);
  }

  lemma TokenReads(e: LiveEvent, volume: Option<real>, publishTsMs: int, ft: FloatText)
    ensures var p := BuildPayload(e, volume, publishTsMs);
      && SafeInt(Or(TfOf(p.(tf := None)), p.interval), 0) == (if e.tf == 1440 then 0 else e.tf)
      && GatewayCandle(p.(tf := None)) == GatewayCandle(p)
      && IntervalMinutes(p.interval, ft) == Some(e.tf)
  {
    hide Str, ParseInt, Strip, Upper, CandleKey, IdempotencyKey;
    ParseStr(e.tf);
    IntervalText(e.tf);
    DayToken();
  }

  lemma DayToken()
    ensures ParseInt("D") == None && Upper(Strip("D")) == "D"
  {
    StripNothing("D");
    hide Strip;
    var day := "D";
    assert day[0] == 'D' && day[0] in day && !IsDigit(day[0]);
    assert Upper(day) == day;
  }

  /** The gateway takes the final flag from the type; only a partial whose flag is set is refused. */
  lemma GatewayReadsFinalFlag(
    e: LiveEvent, volume: Option<real>, publishTsMs: int, flag: Json, nowMs: int, ft: FloatText)
    requires WellFormed(e)
    ensures var p := BuildPayload(e, volume, publishTsMs);
      DecodeForGateway(p.(isFinal := flag), nowMs, ft) ==
        if e.eventType == Partial && Truthy(flag) then None else DecodeForGateway(p, nowMs, ft)
  {
    var p := BuildPayload(e, volume, publishTsMs);
    TypeOfNameOfType(e.eventType);
    if e.eventType == Partial && Truthy(flag) {
      PartialIsNotFinal(p.(isFinal := flag), nowMs, ft);
    } else {
      hide DecodeForGateway, Normalize;
      GatewayRoundTrip(e, volume, publishTsMs, nowMs, ft);
      SentTf(e);
      SentCandle(e, volume, publishTsMs, ft);
      GatewayDecodes(e, volume, publishTsMs, p.(isFinal := flag), e.candle.(volume := SentVolume(e, volume)), e.tf,
                     nowMs, ft);
    }
  }

  lemma PartialIsNotFinal(p: Payload, nowMs: int, ft: FloatText)
    requires p.eventType == JStr("partial") && Truthy(p.isFinal)
    ensures DecodeForGateway(p, nowMs, ft) == None
  {
  }

  /** The storage worker does look at the flag: it must be true, non-zero, or one of four words. */
  lemma StorageReadsFinalFlag(e: LiveEvent, volume: Option<real>, publishTsMs: int, flag: Json, ft: FloatText)
    requires WellFormed(e)
    ensures var p := BuildPayload(e, volume, publishTsMs);
      DecodeForStorage(p.(isFinal := flag), ft) == if IsYes(flag) then DecodeForStorage(p, ft) else None
  {
    hide StorageFields, SafeBool, IsYes, CandleKey, IdempotencyKey, Strip, Lower, Upper;
    var p := BuildPayload(e, volume, publishTsMs);
    StorageHeader(e, volume, publishTsMs, ft);
    TypeOfNameOfType(e.eventType);
    HeaderOf(p, flag, e.eventType, ft);
    StorageIgnoresFlag(p, e.eventType, flag, ft);
  }

  lemma HeaderOf(p: Payload, flag: Json, t: EventType, ft: FloatText)
    requires p.schemaVersion == JStr(SCHEMA_VERSION) && p.eventType == JStr(TypeName(t))
    ensures DecodeForStorage(p.(isFinal := flag), ft) ==
      if t == Partial || !SafeBool(flag) then None else StorageFields(p.(isFinal := flag), t, ft)
  {
    hide StorageFields, Strip, Lower, Upper, TypeOfName, SafeBool;
    TypeOfNameOfType(t);
    assert Text(Or(p.schemaVersion, JStr("")), ft) == SCHEMA_VERSION;
    assert Text(Or(p.eventType, JStr("")), ft) == TypeName(t);
  }

  /**
    Without tf it reads the interval token, a day included; and it takes a turnover, which the publisher
    never sends, unless that is zero.
   */
  lemma StorageReadsRest(e: LiveEvent, volume: Option<real>, publishTsMs: int, x: real, ft: FloatText)
    requires WellFormed(e)
    ensures var p := BuildPayload(e, volume, publishTsMs);
      var d := DecodeForStorage(p, ft);
      && (e.tf != 0 ==> DecodeForStorage(p.(tf := None), ft) == d)
      && DecodeForStorage(p.(turnover := JReal(x)), ft) ==
           (if d.None? then None else Some(d.value.(turnover := if x == 0.0 then None else Some(x))))
  {
    hide StorageFields, CandleKey, IdempotencyKey, Strip, Lower, Upper, IntervalToken;
    var p := BuildPayload(e, volume, publishTsMs);
    StorageHeader(e, volume, publishTsMs, ft);
    HeaderReadsBack(p.(tf := None), e.eventType, ft);
    HeaderReadsBack(p.(turnover := JReal(x)), e.eventType, ft);
    if e.tf != 0 {
      TfIsReplaced(e, volume, publishTsMs, ft);
    }
    TurnoverIsRead(p, e.eventType, x, ft);
  }

  lemma TfIsReplaced(e: LiveEvent, volume: Option<real>, publishTsMs: int, ft: FloatText)
    requires e.tf != 0
    ensures var p := BuildPayload(e, volume, publishTsMs);
      StorageFields(p.(tf := None), e.eventType, ft) == StorageFields(p, e.eventType, ft)
  {
    hide IntervalMinutes, IntervalToken, Normalize, Strip, Lower, Upper, CandleKey, IdempotencyKey;
    var p := BuildPayload(e, volume, publishTsMs);
    TokenReads(e, volume, publishTsMs, ft);
    IntervalReadsBack(e.tf, ft);
    assert DurableCandle(p.(tf := None)) == DurableCandle(p);
  }

  /** true, a non-zero number, or a text that says so. */
  predicate IsYes(flag: Json) {
    match flag
    case JNull => false
    case JBool(b) => b
    case JInt(n) => n != 0
    case JReal(r) => r != 0.0
    case JStr(s) =>
      var word := Lower(Strip(s));
      word == "1" || word == "true" || word == "yes" || word == "on"
  }

  lemma StorageIgnoresFlag(p: Payload, t: EventType, flag: Json, ft: FloatText)
    ensures StorageFields(p.(isFinal := flag), t, ft) == StorageFields(p, t, ft)
    ensures SafeBool(flag) <==> IsYes(flag)
  {
    assert DurableCandle(p.(isFinal := flag)) == DurableCandle(p);
  }

  lemma TurnoverIsRead(p: Payload, t: EventType, x: real, ft: FloatText)
    requires p.candle.Some? && p.candle.value.turnover == JNull && p.turnover == JNull
    ensures var d := StorageFields(p, t, ft);
      StorageFields(p.(turnover := JReal(x)), t, ft) ==
        if d.None? then None else Some(d.value.(turnover := if x == 0.0 then None else Some(x)))
  {
    hide StorageIds, IntervalMinutes, Normalize, Strip, Lower, Upper, Text;
    assert DurableCandle(p.(turnover := JReal(x))) == DurableCandle(p);
    forall exchange, symbol, interval, candle
      ensures var d := StorageIds(p, t, exchange, symbol, interval, candle, ft);
        StorageIds(p.(turnover := JReal(x)), t, exchange, symbol, interval, candle, ft) ==
          if d.None? then None else Some(d.value.(turnover := if x == 0.0 then None else Some(x)))
    {
      TurnoverOfIds(p, t, exchange, symbol, interval, candle, x, ft);
    }
  }

  lemma TurnoverOfIds(
    p: Payload, t: EventType, exchange: string, symbol: string, interval: int, candle: Candle, x: real, ft: FloatText)
    requires p.candle.Some? && p.candle.value.turnover == JNull && p.turnover == JNull
    ensures var d := StorageIds(p, t, exchange, symbol, interval, candle, ft);
      StorageIds(p.(turnover := JReal(x)), t, exchange, symbol, interval, candle, ft) ==
        if d.None? then None else Some(d.value.(turnover := if x == 0.0 then None else Some(x)))
  {
    hide ToInt, BoundedId, CandleKeyOf, WithType;
  }
}
