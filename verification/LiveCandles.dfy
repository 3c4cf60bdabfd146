/**
  The live candle state of the chart gateway (chart_candles.py) and the gateway that feeds it
  (chart_nats_active_gateway.py).

  Partial and final updates arrive on two lanes, in any order and any number of times.  The state is a
  cache of the latest update per chart, a high-water mark of source sequence numbers, and a bounded
  first-in-first-out memory of finalised bars.  The theorems say that this state is a function of the
  history of emitted events, and what that history can and cannot contain.
 */
module LiveCandles {
  import opened Options
  import opened PyText
  import opened ChartEvents

  const FINALIZED_BAR_LIMIT: nat := 10000

  datatype Key = Key(symbol: string, tf: string)

  datatype BarKey = BarKey(key: Key, start: int)

  /** What is sent to chart clients. */
  datatype Emitted =
    | Update(key: Key, candle: Candle, isFinal: bool, source: string, sourceSeq: Option<int>, seqNo: nat)
    | ReconcileNote(key: Key, candle: Candle, reason: string, source: string, sourceSeq: Option<int>, seqNo: nat)

  datatype State = State(
    live: map<Key, Emitted>, sourceSeqs: map<Key, int>,
    finalBars: set<BarKey>, finalOrder: seq<BarKey>, eventSeq: nat)

  /** A call that has passed the key and candle checks. */
  datatype Request = Request(key: Key, candle: Candle, isFinal: bool, source: string, sourceSeq: Option<int>)

  // ----- Checks before the lock -----

  function MakeKey(symbol: string, tf: string): Option<Key> {
    var s, t := Strip(Upper(symbol)), Strip(tf);
    if s == "" || t !in {"15", "30", "60", "240", "1440"} then None else Some(Key(s, t))
  }

  function Prepare(
    symbol: string, tf: string, candle: Option<CandleDict>, isFinal: bool, source: string, sourceSeq: Option<int>,
    ft: FloatText): Option<Request> {
    var c := match candle case None => None case Some(d) => Normalize(d, None, ft);
    match (MakeKey(symbol, tf), c)
    case (Some(key), Some(candle)) => Some(Request(key, candle.(confirm := isFinal), isFinal, source, sourceSeq))
    case _ => None
  }

  // ----- The step under the lock -----

  function BarOf(r: Request): BarKey {
    BarKey(r.key, r.candle.start)
  }

  /** A partial is stale when its sequence number does not exceed the highest one accepted. */
  predicate Stale(seqs: map<Key, int>, r: Request) {
    !r.isFinal && r.sourceSeq.Some? && r.key in seqs && r.sourceSeq.value <= seqs[r.key]
  }

  predicate Accepts(s: State, r: Request) {
    BarOf(r) !in s.finalBars && !Stale(s.sourceSeqs, r)
  }

  function Emit(s: State, r: Request): Emitted {
    Update(r.key, r.candle, r.isFinal, if r.source == "" then "unknown" else r.source, r.sourceSeq, s.eventSeq + 1)
  }

  function LiveAfter(live: map<Key, Emitted>, e: Emitted): map<Key, Emitted> {
    if e.key !in live || e.candle.start >= live[e.key].candle.start then live[e.key := e] else live
  }

  function SeqsAfter(seqs: map<Key, int>, r: Request): map<Key, int> {
    if r.sourceSeq.None? then seqs
    else if r.key in seqs && seqs[r.key] > r.sourceSeq.value then seqs
    else seqs[r.key := r.sourceSeq.value]
  }

  /** Append, then drop from the front what is over the limit. */
  function OrderAfter(order: seq<BarKey>, b: BarKey, limit: nat): seq<BarKey> {
    LastN(order + [b], limit)
  }

  function LastN<T>(s: seq<T>, n: nat): (r: seq<T>)
    ensures |r| <= n
  {
    if |s| <= n then s else s[|s| - n..]
  }

  function Elements(s: seq<BarKey>): set<BarKey> {
    set b | b in s
  }

  function Upsert(limit: nat, s: State, r: Request): State {
    if !Accepts(s, r) then s
    else
      var order := if r.isFinal then OrderAfter(s.finalOrder, BarOf(r), limit) else s.finalOrder;
      State(LiveAfter(s.live, Emit(s, r)), SeqsAfter(s.sourceSeqs, r), Elements(order), order, s.eventSeq + 1)
  }

  // ----- The code -----

  class LiveState {
    var live: map<Key, Emitted>
    var sourceSeqs: map<Key, int>
    var finalBars: set<BarKey>
    var finalOrder: seq<BarKey>
    var eventSeq: nat
    const limit: nat

    constructor ()
      ensures limit == FINALIZED_BAR_LIMIT && View() == Nothing()
    {
      live, sourceSeqs, finalBars, finalOrder, eventSeq := map[], map[], {}, [], 0;
      limit := FINALIZED_BAR_LIMIT;
    }

    function View(): State
      reads this
    {
      State(live, sourceSeqs, finalBars, finalOrder, eventSeq)
    }

    /** The set and the deque hold the same distinct keys, within the limit. */
    predicate Valid()
      reads this
    {
      MemorySound(limit, View())
    }

    method UpsertLiveEvent(r: Request) returns (ok: bool, sent: Option<Emitted>)
      requires Valid()
      modifies this
      ensures Valid() && View() == Upsert(limit, old(View()), r)
      ensures ok == Accepts(old(View()), r)
      ensures sent == if ok then Some(Emit(old(View()), r)) else None
    {
      hide LastN, OrderAfter, Distinct, Elements;
      var finalizedKey := BarKey(r.key, r.candle.start);
      if finalizedKey in finalBars {
        return false, None;
      }
      var currentStart := if r.key in live then Some(live[r.key].candle.start) else None;
      var lastSeq := if r.key in sourceSeqs then Some(sourceSeqs[r.key]) else None;
      if r.sourceSeq.Some? && lastSeq.Some? && r.sourceSeq.value <= lastSeq.value && !r.isFinal {
        return false, None;
      }
      eventSeq := eventSeq + 1;
      var origin := if r.source == "" then "unknown" else r.source;
      var event := Update(r.key, r.candle, r.isFinal, origin, r.sourceSeq, eventSeq);
      if currentStart.None? || r.candle.start >= currentStart.value {
        live := live[r.key := event];
      }
      if r.isFinal {
        RememberFinalizedBar(finalizedKey);
      }
      if r.sourceSeq.Some? {
        var highest := if lastSeq.Some? && lastSeq.value > r.sourceSeq.value then lastSeq.value else r.sourceSeq.value;
        sourceSeqs := sourceSeqs[r.key := highest];
      }
      return true, Some(event);
    }

    method RememberFinalizedBar(b: BarKey)
      requires MemorySound(limit, View())
      modifies this`finalBars, this`finalOrder
      ensures MemorySound(limit, View())
      ensures b in old(finalBars) ==> finalOrder == old(finalOrder) && finalBars == old(finalBars)
      ensures b !in old(finalBars) ==>
        finalOrder == OrderAfter(old(finalOrder), b, limit) && finalBars == Elements(finalOrder)
    {
      if b in finalBars {
        return;
      }
      ElementsOfSnoc(finalOrder, b);
      finalBars, finalOrder := finalBars + {b}, finalOrder + [b];
      while |finalOrder| > limit
        invariant LastN(finalOrder, limit) == OrderAfter(old(finalOrder), b, limit)
        invariant Distinct(finalOrder) && finalBars == Elements(finalOrder)
        decreases |finalOrder|
      {
        var oldKey := finalOrder[0];
        ElementsOfTail(finalOrder);
        finalOrder := finalOrder[1..];
        finalBars := finalBars - {oldKey};
      }
    }

    /** A reconcile is sent on without touching the state; only the event number advances. */
    method BroadcastReconcile(
      key: Key, candle: Candle, reason: string, source: string, sourceSeq: Option<int>) returns (sent: Emitted)
      modifies this`eventSeq
      ensures eventSeq == old(eventSeq) + 1
      ensures sent == ReconcileNote(key, candle, reason, source, sourceSeq, eventSeq)
    {
      eventSeq := eventSeq + 1;
      sent := ReconcileNote(key, candle, reason, source, sourceSeq, eventSeq);
    }
  }

  function Nothing(): State {
    State(map[], map[], {}, [], 0)
  }

  predicate Distinct(s: seq<BarKey>) {
    forall i, j :: 0 <= i < j < |s| ==> s[i] != s[j]
  }

  predicate MemorySound(limit: nat, s: State) {
    Distinct(s.finalOrder) && s.finalBars == Elements(s.finalOrder) && |s.finalOrder| <= limit
  }

  lemma ElementsOfSnoc(s: seq<BarKey>, b: BarKey)
    requires Distinct(s) && b !in Elements(s)
    ensures Elements(s + [b]) == Elements(s) + {b} && Distinct(s + [b])
  {
    forall x | x in Elements(s) + {b} ensures x in Elements(s + [b]) {
      assert (s + [b])[|s|] == b;
      if x != b {
        var i :| 0 <= i < |s| && s[i] == x;
        assert (s + [b])[i] == x;
      }
    }
  }

  lemma ElementsOfTail(s: seq<BarKey>)
    requires s != [] && Distinct(s)
    ensures Elements(s[1..]) == Elements(s) - {s[0]} && Distinct(s[1..])
  {
    assert s == [s[0]] + s[1..];
  }

  // ----- Runs -----

  datatype Action =
    | Live(r: Request)
    | Note(key: Key, candle: Candle, reason: string, source: string, sourceSeq: Option<int>)

  /** The state together with everything emitted so far. */
  datatype World = World(state: State, history: seq<Emitted>)

  function Step(limit: nat, w: World, a: Action): World {
    match a
    case Live(r) =>
      if Accepts(w.state, r) then World(Upsert(limit, w.state, r), w.history + [Emit(w.state, r)]) else w
    case Note(key, candle, reason, source, sourceSeq) =>
      World(w.state.(eventSeq := w.state.eventSeq + 1),
            w.history + [ReconcileNote(key, candle, reason, source, sourceSeq, w.state.eventSeq + 1)])
  }

  function Run(limit: nat, w: World, actions: seq<Action>): World
    decreases |actions|
  {
    if actions == [] then w else Run(limit, Step(limit, w, actions[0]), actions[1..])
  }

  // ----- The state as a function of the history -----

  function Last(h: seq<Emitted>): Emitted
    requires h != []
  {
    h[|h| - 1]
  }

  function Front(h: seq<Emitted>): seq<Emitted>
    requires h != []
  {
    h[..|h| - 1]
  }

  function Bar(e: Emitted): BarKey {
    BarKey(e.key, e.candle.start)
  }

  /** The bars of the final updates, in the order they were emitted. */
  function Finals(h: seq<Emitted>): seq<BarKey>
    decreases |h|
  {
    if h == [] then []
    else Finals(Front(h)) + if Last(h).Update? && Last(h).isFinal then [Bar(Last(h))] else []
  }

  /** The position of the update that the cache should hold for a chart. */
  function Newest(h: seq<Emitted>, key: Key): (r: Option<nat>)
    ensures r.Some? ==> r.value < |h| && h[r.value].Update? && h[r.value].key == key
    decreases |h|
  {
    if h == [] then None
    else
      var before := Newest(Front(h), key);
      if Last(h).Update? && Last(h).key == key
         && (before.None? || Last(h).candle.start >= h[before.value].candle.start)
      then Some(|h| - 1)
      else before
  }

  function MaxSeq(h: seq<Emitted>, key: Key): Option<int>
    decreases |h|
  {
    if h == [] then None
    else
      var before := MaxSeq(Front(h), key);
      if Last(h).Update? && Last(h).key == key && Last(h).sourceSeq.Some?
         && (before.None? || before.value <= Last(h).sourceSeq.value)
      then Last(h).sourceSeq
      else before
  }

  /** Newest is the last of the updates with the greatest bar start. */
  lemma {:induction false} NewestIsLastOfGreatest(h: seq<Emitted>, key: Key, i: nat)
    requires i < |h| && h[i].Update? && h[i].key == key
    ensures Newest(h, key).Some?
    ensures h[i].candle.start <= h[Newest(h, key).value].candle.start
    ensures i > Newest(h, key).value ==> h[i].candle.start < h[Newest(h, key).value].candle.start
    decreases |h|
  {
    if i < |h| - 1 {
      NewestIsLastOfGreatest(Front(h), key, i);
    } else if Newest(Front(h), key).Some? {
      NewestIsLastOfGreatest(Front(h), key, Newest(Front(h), key).value);
    }
  }

  /** MaxSeq is the greatest sequence number among the emitted updates of a chart. */
  lemma {:induction false} MaxSeqIsGreatest(h: seq<Emitted>, key: Key)
    ensures forall i :: 0 <= i < |h| && h[i].Update? && h[i].key == key && h[i].sourceSeq.Some? ==>
      MaxSeq(h, key).Some? && h[i].sourceSeq.value <= MaxSeq(h, key).value
    ensures MaxSeq(h, key).Some? ==>
      exists i :: 0 <= i < |h| && h[i].Update? && h[i].key == key && h[i].sourceSeq == MaxSeq(h, key)
    decreases |h|
  {
    if h != [] {
      var f := Front(h);
      MaxSeqIsGreatest(f, key);
      assert forall i :: 0 <= i < |f| ==> h[i] == f[i];
      if MaxSeq(h, key).Some? && MaxSeq(h, key) == MaxSeq(f, key) {
        var i :| 0 <= i < |f| && f[i].Update? && f[i].key == key && f[i].sourceSeq == MaxSeq(f, key);
        assert h[i].sourceSeq == MaxSeq(h, key);
      }
    }
  }

  ghost predicate LiveRefines(live: map<Key, Emitted>, h: seq<Emitted>) {
    forall key :: match Newest(h, key)
      case None => key !in live
      case Some(i) => key in live && live[key] == h[i]
  }

  ghost predicate SeqsRefine(seqs: map<Key, int>, h: seq<Emitted>) {
    forall key :: match MaxSeq(h, key)
      case None => key !in seqs
      case Some(n) => key in seqs && seqs[key] == n
  }

  /** The whole state is determined by what has been emitted. */
  ghost predicate Refines(limit: nat, w: World) {
    && LiveRefines(w.state.live, w.history)
    && SeqsRefine(w.state.sourceSeqs, w.history)
    && w.state.finalOrder == LastN(Finals(w.history), limit)
    && w.state.eventSeq == |w.history|
    && MemorySound(limit, w.state)
  }

  /** An update is emitted only for a bar that is not in the memory at that moment, and partials advance. */
  ghost predicate Orderly(limit: nat, h: seq<Emitted>) {
    forall j :: 0 <= j < |h| ==> OrderlyAt(limit, h, j)
  }

  ghost predicate OrderlyAt(limit: nat, h: seq<Emitted>, j: nat)
    requires j < |h|
  {
    && h[j].seqNo == j + 1
    && (h[j].Update? ==> Bar(h[j]) !in LastN(Finals(h[..j]), limit))
    && (h[j].Update? && !h[j].isFinal && h[j].sourceSeq.Some? && MaxSeq(h[..j], h[j].key).Some? ==>
        h[j].sourceSeq.value > MaxSeq(h[..j], h[j].key).value)
  }

  lemma LiveStep(live: map<Key, Emitted>, h: seq<Emitted>, e: Emitted)
    requires LiveRefines(live, h) && e.Update?
    ensures LiveRefines(LiveAfter(live, e), h + [e])
  {
    var h' := h + [e];
    assert Front(h') == h && Last(h') == e;
    forall key
      ensures match Newest(h', key)
              case None => key !in LiveAfter(live, e)
              case Some(i) => key in LiveAfter(live, e) && LiveAfter(live, e)[key] == h'[i]
    {
      assert Newest(h, key).Some? ==> h'[Newest(h, key).value] == h[Newest(h, key).value];
    }
  }

  lemma SeqsStep(seqs: map<Key, int>, h: seq<Emitted>, r: Request, e: Emitted)
    requires SeqsRefine(seqs, h) && e.Update? && e.key == r.key && e.sourceSeq == r.sourceSeq
    ensures SeqsRefine(SeqsAfter(seqs, r), h + [e])
  {
    var h' := h + [e];
    assert Front(h') == h && Last(h') == e;
  }

  lemma NoteStep(live: map<Key, Emitted>, seqs: map<Key, int>, h: seq<Emitted>, e: Emitted)
    requires LiveRefines(live, h) && SeqsRefine(seqs, h) && e.ReconcileNote?
    ensures LiveRefines(live, h + [e]) && SeqsRefine(seqs, h + [e]) && Finals(h + [e]) == Finals(h)
  {
    var h' := h + [e];
    assert Front(h') == h && Last(h') == e;
    forall key
      ensures match Newest(h', key)
              case None => key !in live
              case Some(i) => key in live && live[key] == h'[i]
    {
      assert Newest(h', key) == Newest(h, key);
    }
  }

  lemma MemoryStep(order: seq<BarKey>, b: BarKey, all: seq<BarKey>, limit: nat)
    requires Distinct(order) && b !in order && order == LastN(all, limit)
    ensures OrderAfter(order, b, limit) == LastN(all + [b], limit)
    ensures Distinct(OrderAfter(order, b, limit))
  {
    var next := order + [b];
    assert Distinct(next);
    if |all| > limit {
      assert all + [b] == all[..|all| - limit] + next;
    }
  }

  lemma OrderlySnoc(limit: nat, h: seq<Emitted>, e: Emitted)
    requires Orderly(limit, h)
    requires e.seqNo == |h| + 1
    requires e.Update? ==> Bar(e) !in LastN(Finals(h), limit)
    requires e.Update? && !e.isFinal && e.sourceSeq.Some? && MaxSeq(h, e.key).Some? ==>
      e.sourceSeq.value > MaxSeq(h, e.key).value
    ensures Orderly(limit, h + [e])
  {
    var h' := h + [e];
    forall j | 0 <= j < |h'| ensures OrderlyAt(limit, h', j) {
      if j < |h| {
        assert OrderlyAt(limit, h, j);
        assert h'[..j] == h[..j];
      } else {
        assert h'[..j] == h;
      }
    }
  }

  lemma LastNOf(all: seq<BarKey>, limit: nat)
    ensures forall b :: b in LastN(all, limit) <==> b in Elements(LastN(all, limit))
    ensures |LastN(all, limit)| <= limit
  {
  }

  lemma UpsertStep(limit: nat, w: World, r: Request)
    requires Refines(limit, w) && Orderly(limit, w.history) && Accepts(w.state, r)
    ensures Refines(limit, Step(limit, w, Live(r))) && Orderly(limit, Step(limit, w, Live(r)).history)
  {
    hide LastN, OrderAfter, LiveAfter, SeqsAfter, LiveRefines, Distinct, Newest, MaxSeq, OrderlyAt, Orderly;
    var e := Emit(w.state, r);
    var h' := w.history + [e];
    assert Front(h') == w.history && Last(h') == e;
    LiveStep(w.state.live, w.history, e);
    SeqsStep(w.state.sourceSeqs, w.history, r, e);
    if r.isFinal {
      MemoryStep(w.state.finalOrder, BarOf(r), Finals(w.history), limit);
    } else {
      assert Finals(h') == Finals(w.history);
    }
    LastNOf(Finals(w.history), limit);
    OrderlySnoc(limit, w.history, e);
  }

  lemma StepRefines(limit: nat, w: World, a: Action)
    requires Refines(limit, w) && Orderly(limit, w.history)
    ensures Refines(limit, Step(limit, w, a)) && Orderly(limit, Step(limit, w, a).history)
  {
    match a
    case Live(r) =>
      if Accepts(w.state, r) {
        UpsertStep(limit, w, r);
      }
    case Note(key, candle, reason, source, sourceSeq) =>
      var e := ReconcileNote(key, candle, reason, source, sourceSeq, w.state.eventSeq + 1);
      NoteStep(w.state.live, w.state.sourceSeqs, w.history, e);
      OrderlySnoc(limit, w.history, e);
  }

  /** For every sequence of calls the state refines the history and the history is orderly. */
  lemma {:induction false} RunRefines(limit: nat, w: World, actions: seq<Action>)
    requires Refines(limit, w) && Orderly(limit, w.history)
    ensures Refines(limit, Run(limit, w, actions)) && Orderly(limit, Run(limit, w, actions).history)
    decreases |actions|
  {
    if actions != [] {
      StepRefines(limit, w, actions[0]);
      RunRefines(limit, Step(limit, w, actions[0]), actions[1..]);
    }
  }

  lemma StartRefines(limit: nat)
    ensures Refines(limit, World(Nothing(), [])) && Orderly(limit, [])
  {
  }

  // ----- What a history can contain -----

  lemma {:induction false} FinalsGrow(h: seq<Emitted>, i: nat, j: nat)
    requires i <= j <= |h|
    ensures |Finals(h[..i])| <= |Finals(h[..j])|
    ensures Finals(h[..j])[..|Finals(h[..i])|] == Finals(h[..i])
    decreases j
  {
    if i < j {
      FinalsGrow(h, i, j - 1);
      assert Front(h[..j]) == h[..j - 1];
    }
  }

  /**
    Once a final for a bar is emitted, the bar's next update of any kind comes only after at least
    limit other finals have been emitted in between.
   */
  lemma SilenceAfterFinal(limit: nat, h: seq<Emitted>, i: nat, j: nat)
    requires Orderly(limit, h) && i < j < |h|
    requires h[i].Update? && h[i].isFinal && h[j].Update? && Bar(h[i]) == Bar(h[j])
    ensures |Finals(h[..j])| - |Finals(h[..i + 1])| >= limit
  {
    var p := |Finals(h[..i])|;
    assert Front(h[..i + 1]) == h[..i] && Last(h[..i + 1]) == h[i];
    assert Finals(h[..i + 1]) == Finals(h[..i]) + [Bar(h[i])];
    FinalsGrow(h, i + 1, j);
    var all := Finals(h[..j]);
    assert all[p] == all[..p + 1][p] == Bar(h[i]);
    assert OrderlyAt(limit, h, j);
    AmongLastN(all, p, limit);
  }

  lemma AmongLastN(all: seq<BarKey>, p: nat, limit: nat)
    requires p < |all|
    ensures |all| - limit <= p ==> all[p] in LastN(all, limit)
  {
    if |all| - limit <= p {
      assert LastN(all, limit)[if |all| <= limit then p else p - (|all| - limit)] == all[p];
    }
  }

  /** And the memory is exact: a bar is silenced as long as fewer than limit finals followed its own. */
  lemma RememberedUntilLimit(limit: nat, w: World, i: nat, r: Request)
    requires Refines(limit, w) && i < |w.history| && w.history[i].Update? && w.history[i].isFinal
    requires BarOf(r) == Bar(w.history[i])
    requires |Finals(w.history)| - |Finals(w.history[..i + 1])| < limit
    ensures !Accepts(w.state, r)
  {
    var h := w.history;
    var p := |Finals(h[..i])|;
    assert Front(h[..i + 1]) == h[..i] && Last(h[..i + 1]) == h[i];
    FinalsGrow(h, i + 1, |h|);
    assert h[..|h|] == h;
    var all := Finals(h);
    assert all[p] == all[..p + 1][p] == Bar(h[i]);
    AmongLastN(all, p, limit);
  }

  /** A partial with a sequence number exceeds every sequence number emitted before it for its chart. */
  lemma PartialsAdvance(limit: nat, h: seq<Emitted>, i: nat, j: nat)
    requires Orderly(limit, h) && i < j < |h|
    requires h[i].Update? && h[j].Update? && h[i].key == h[j].key
    requires h[i].sourceSeq.Some? && h[j].sourceSeq.Some? && !h[j].isFinal
    ensures h[i].sourceSeq.value < h[j].sourceSeq.value
  {
    MaxSeqIsGreatest(h[..j], h[j].key);
    assert h[..j][i] == h[i];
    assert OrderlyAt(limit, h, j);
  }

  /** The live cache, from outside: the last emitted update among those with the greatest bar start. */
  lemma CacheIsNewest(limit: nat, w: World, key: Key, i: nat)
    requires Refines(limit, w) && Orderly(limit, w.history)
    requires i < |w.history| && w.history[i].Update? && w.history[i].key == key
    ensures key in w.state.live && w.state.live[key] in w.history
    ensures w.history[i].candle.start <= w.state.live[key].candle.start
    ensures w.history[i].candle.start == w.state.live[key].candle.start
      ==> w.history[i].seqNo <= w.state.live[key].seqNo
  {
    NewestIsLastOfGreatest(w.history, key, i);
    var n := Newest(w.history, key).value;
    assert w.state.live[key] == w.history[n];
    assert OrderlyAt(limit, w.history, i) && OrderlyAt(limit, w.history, n);
  }

  // ----- The gateway -----

  /**
    How a message ends: the acknowledgement arrives, raises or is cancelled; the call is cancelled while
    it waits for the lock; or the fan-out to the clients raises or is cancelled.
   */
  datatype Ending = AckArrives | AckRaises | AckCut | LockCut | FanOutRaises | FanOutCut

  datatype Message = Message(event: Option<LiveEvent>, active: bool, numDelivered: int, ending: Ending)

  datatype GatewayStats = GatewayStats(
    seen: nat, fanout: nat, fanoutDrop: nat, inactiveDrop: nat, ack: nat, nak: nat, term: nat, schemaDrop: nat,
    redelivery: nat)

  /** The call that a decoded event makes; none when the chart key is refused. */
  function ActionOf(e: LiveEvent): Option<Action> {
    match MakeKey(e.symbol, Str(e.tf))
    case None => None
    case Some(key) =>
      if e.eventType == Reconcile
      then
        var reason := match e.reason
          case None => "broker_reconcile"
          case Some(s) => if s == "" then "broker_reconcile" else s;
        Some(Note(key, e.candle, reason, e.source, e.sourceSeq))
      else Some(Live(Request(key, e.candle.(confirm := e.isFinal), e.isFinal, e.source, e.sourceSeq)))
  }

  /** The request of a gateway event is what the checks before the lock make of its fields. */
  lemma ActionIsPrepared(e: LiveEvent, ft: FloatText)
    requires e.eventType != Reconcile
    ensures var r := Prepare(e.symbol, Str(e.tf), Some(AsDict(e.candle)), e.isFinal, e.source, e.sourceSeq, ft);
      ActionOf(e) == match r case None => None case Some(request) => Some(Live(request))
  {
    hide MakeKey, Str;
    assert Normalize(AsDict(e.candle), None, ft) == Some(e.candle);
    hide Normalize, AsDict;
  }

  predicate Fans(s: State, a: Option<Action>) {
    match a
    case None => false
    case Some(Live(r)) => Accepts(s, r)
    case Some(_) => true
  }

  function StateAfter(limit: nat, s: State, a: Option<Action>): State {
    match a
    case None => s
    case Some(Live(r)) => Upsert(limit, s, r)
    case Some(_) => s.(eventSeq := s.eventSeq + 1)
  }

  /** The call of the message is cancelled before it takes the lock; only an update waits for it. */
  predicate NeverStarts(m: Message) {
    && m.event.Some? && m.active && m.ending == LockCut
    && match ActionOf(m.event.value) case Some(Live(_)) => true case _ => false
  }

  /** The call ends without a result, so that neither fan-out counter moves. */
  predicate CutOff(s: State, m: Message) {
    && m.event.Some? && m.active
    && (NeverStarts(m) || ((m.ending == FanOutRaises || m.ending == FanOutCut) && Fans(s, ActionOf(m.event.value))))
  }

  function HandleState(limit: nat, s: State, m: Message): State {
    if m.event.None? || !m.active || NeverStarts(m) then s else StateAfter(limit, s, ActionOf(m.event.value))
  }

  function HandleStats(s: State, g: GatewayStats, m: Message): GatewayStats {
    var g1 := g.(seen := g.seen + 1, redelivery := g.redelivery + if m.numDelivered > 1 then 1 else 0);
    if m.event.None? then g1.(schemaDrop := g1.schemaDrop + 1, term := g1.term + 1)
    else if !m.active then
      g1.(inactiveDrop := g1.inactiveDrop + 1, ack := g1.ack + if m.ending == AckArrives then 1 else 0)
    else
      var fans := Fans(s, ActionOf(m.event.value));
      var g2 :=
        if CutOff(s, m) then g1
        else g1.(fanout := g1.fanout + if fans then 1 else 0, fanoutDrop := g1.fanoutDrop + if fans then 0 else 1);
      match m.ending
      case AckArrives => g2.(ack := g2.ack + 1)
      case AckRaises => g2.(nak := g2.nak + 1)
      case FanOutRaises => g2.(nak := g2.nak + 1)
      case _ => g2
  }

  class Gateway {
    const state: LiveState
    var stats: GatewayStats

    constructor (state: LiveState)
      ensures this.state == state && stats == GatewayStats(0, 0, 0, 0, 0, 0, 0, 0, 0)
    {
      this.state := state;
      stats := GatewayStats(0, 0, 0, 0, 0, 0, 0, 0, 0);
    }

    /** One broker message; what fails after the state change leaves it in place. */
    method HandleMessage(m: Message)
      requires state.Valid()
      modifies this, state
      ensures state.Valid() && state.View() == HandleState(state.limit, old(state.View()), m)
      ensures stats == HandleStats(old(state.View()), old(stats), m)
    {
      hide ActionOf, MakeKey, Upsert, Distinct, Elements, Accepts;
      stats := stats.(seen := stats.seen + 1);
      if m.numDelivered > 1 {
        stats := stats.(redelivery := stats.redelivery + 1);
      }
      if m.event.None? {
        stats := stats.(schemaDrop := stats.schemaDrop + 1, term := stats.term + 1);
        return;
      }
      if !m.active {
        stats := stats.(inactiveDrop := stats.inactiveDrop + 1);
        if m.ending == AckArrives {
          stats := stats.(ack := stats.ack + 1);
        }
        return;
      }
      var ok := false;
      match ActionOf(m.event.value) {
        case None =>
        case Some(Live(r)) =>
          if m.ending == LockCut {
            return;
          }
          var sent;
          ok, sent := state.UpsertLiveEvent(r);
        case Some(Note(key, candle, reason, source, sourceSeq)) =>
          var sent := state.BroadcastReconcile(key, candle, reason, source, sourceSeq);
          ok := true;
      }
      if ok && m.ending == FanOutCut {
        return;
      }
      if ok && m.ending == FanOutRaises {
        stats := stats.(nak := stats.nak + 1);
        return;
      }
      if ok {
        stats := stats.(fanout := stats.fanout + 1);
      } else {
        stats := stats.(fanoutDrop := stats.fanoutDrop + 1);
      }
      if m.ending == AckArrives {
        stats := stats.(ack := stats.ack + 1);
      } else if m.ending == AckRaises || m.ending == FanOutRaises {
        stats := stats.(nak := stats.nak + 1);
      }
    }
  }

  /** The call that a message makes, if it makes one. */
  function Calls(m: Message): Option<Action> {
    if m.event.None? || !m.active || NeverStarts(m) then None else ActionOf(m.event.value)
  }

  /** The calls that a run of messages makes, however they end. */
  function Actions(ms: seq<Message>): seq<Action> {
    if ms == [] then [] else (if Calls(ms[0]).Some? then [Calls(ms[0]).value] else []) + Actions(ms[1..])
  }

  function RunMessages(limit: nat, s: State, ms: seq<Message>): State
    decreases |ms|
  {
    if ms == [] then s else RunMessages(limit, HandleState(limit, s, ms[0]), ms[1..])
  }

  /** The gateway's state after any messages is the state of a run of calls, so every theorem above applies. */
  lemma {:induction false} GatewayIsARun(limit: nat, w: World, ms: seq<Message>)
    ensures RunMessages(limit, w.state, ms) == Run(limit, w, Actions(ms)).state
    decreases |ms|
  {
    hide ActionOf, NeverStarts, MakeKey, LiveAfter, SeqsAfter, OrderAfter, BarOf, Stale, Elements, Emit;
    if ms != [] {
      var m := ms[0];
      if Calls(m).Some? {
        var a := Calls(m).value;
        assert Actions(ms) == [a] + Actions(ms[1..]);
        GatewayIsARun(limit, Step(limit, w, a), ms[1..]);
      } else {
        assert Actions(ms) == Actions(ms[1..]);
        GatewayIsARun(limit, w, ms[1..]);
      }
    }
  }

  /** What the gateway has sent from a fresh start: the history of the calls it made. */
  function Sent(limit: nat, ms: seq<Message>): seq<Emitted> {
    Run(limit, World(Nothing(), []), Actions(ms)).history
  }

  lemma GatewayRefines(limit: nat, ms: seq<Message>)
    ensures var w := World(RunMessages(limit, Nothing(), ms), Sent(limit, ms));
      Refines(limit, w) && Orderly(limit, w.history)
  {
    hide Refines, Orderly, Run, RunMessages, Actions, Nothing;
    StartRefines(limit);
    RunRefines(limit, World(Nothing(), []), Actions(ms));
    GatewayIsARun(limit, World(Nothing(), []), ms);
  }

  /** Two sequenced updates of one chart, the later one a partial. */
  predicate SequencedPair(a: Emitted, b: Emitted) {
    a.Update? && b.Update? && a.key == b.key && a.sourceSeq.Some? && b.sourceSeq.Some? && !b.isFinal
  }

  /**
    For any messages from a fresh start, in any order and with any redelivery and failure: after a final
    no update of its bar is sent before limit other finals; a sequenced partial exceeds all sequences sent
    before it for its chart; and the cache is the last update of the greatest bar start.
   */
  lemma GatewayPromises(limit: nat, ms: seq<Message>)
    ensures var h, s := Sent(limit, ms), RunMessages(limit, Nothing(), ms);
      && (forall i, j :: 0 <= i < j < |h| && h[i].Update? && h[i].isFinal && h[j].Update? && Bar(h[i]) == Bar(h[j]) ==>
            |Finals(h[..j])| - |Finals(h[..i + 1])| >= limit)
      && (forall i, j :: 0 <= i < j < |h| && SequencedPair(h[i], h[j]) ==> h[i].sourceSeq.value < h[j].sourceSeq.value)
      && (forall i :: 0 <= i < |h| && h[i].Update? ==>
            && h[i].key in s.live && s.live[h[i].key] in h
            && h[i].candle.start <= s.live[h[i].key].candle.start
            && (h[i].candle.start == s.live[h[i].key].candle.start ==> h[i].seqNo <= s.live[h[i].key].seqNo))
  {
    hide Refines, Orderly, Sent, RunMessages, Finals, Nothing;
    GatewayRefines(limit, ms);
    var h, s := Sent(limit, ms), RunMessages(limit, Nothing(), ms);
    forall i, j | 0 <= i < j < |h| && h[i].Update? && h[i].isFinal && h[j].Update? && Bar(h[i]) == Bar(h[j])
      ensures |Finals(h[..j])| - |Finals(h[..i + 1])| >= limit
    {
      SilenceAfterFinal(limit, h, i, j);
    }
    forall i, j | 0 <= i < j < |h| && SequencedPair(h[i], h[j])
      ensures h[i].sourceSeq.value < h[j].sourceSeq.value
    {
      PartialsAdvance(limit, h, i, j);
    }
    forall i | 0 <= i < |h| && h[i].Update?
      ensures h[i].key in s.live && s.live[h[i].key] in h
      ensures h[i].candle.start <= s.live[h[i].key].candle.start
      ensures h[i].candle.start == s.live[h[i].key].candle.start ==> h[i].seqNo <= s.live[h[i].key].seqNo
    {
      CacheIsNewest(limit, World(s, h), h[i].key, i);
    }
  }

  /** And the gateway refuses every update of a finalized bar until limit other finals were sent. */
  lemma GatewayRemembers(limit: nat, ms: seq<Message>, i: nat, r: Request)
    requires i < |Sent(limit, ms)| && Sent(limit, ms)[i].Update? && Sent(limit, ms)[i].isFinal
    requires BarOf(r) == Bar(Sent(limit, ms)[i])
    requires |Finals(Sent(limit, ms))| - |Finals(Sent(limit, ms)[..i + 1])| < limit
    ensures !Accepts(RunMessages(limit, Nothing(), ms), r)
  {
    hide Refines, Orderly, Sent, RunMessages, Finals, Nothing, Accepts;
    GatewayRefines(limit, ms);
    RememberedUntilLimit(limit, World(RunMessages(limit, Nothing(), ms), Sent(limit, ms)), i, r);
  }

  // ----- What one more message sends -----

  /** A final of the bar was sent, and fewer than limit other finals since. */
  ghost predicate Remembered(limit: nat, h: seq<Emitted>, b: BarKey) {
    exists i :: 0 <= i < |h| && FinalAt(h, i, b) && |Finals(h)| - |Finals(h[..i + 1])| < limit
  }

  predicate FinalAt(h: seq<Emitted>, i: nat, b: BarKey)
    requires i < |h|
  {
    h[i].Update? && h[i].isFinal && h[i].key == b.key && h[i].candle.start == b.start
  }

  /** Every sequence that was sent for the chart is lower. */
  predicate Advances(h: seq<Emitted>, key: Key, seqNo: int) {
    forall i :: 0 <= i < |h| && h[i].Update? && h[i].key == key && h[i].sourceSeq.Some? ==>
      h[i].sourceSeq.value < seqNo
  }

  lemma {:induction false} FinalsAreSent(h: seq<Emitted>, p: nat) returns (i: nat)
    requires p < |Finals(h)|
    ensures i < |h| && FinalAt(h, i, Finals(h)[p]) && |Finals(h[..i + 1])| == p + 1
    decreases |h|
  {
    var f := Front(h);
    if p < |Finals(f)| {
      i := FinalsAreSent(f, p);
      assert h[..i + 1] == f[..i + 1];
    } else {
      i := |h| - 1;
      assert h[..i + 1] == h;
    }
  }

  lemma RememberedIff(limit: nat, w: World, b: BarKey)
    requires Refines(limit, w)
    ensures b in w.state.finalBars <==> Remembered(limit, w.history, b)
  {
    hide LiveRefines, SeqsRefine, LastN, Finals, FinalAt;
    var h, all := w.history, Finals(w.history);
    LastNOf(all, limit);
    if b in w.state.finalBars {
      var p := PositionInLastN(all, limit, b);
      var i := FinalsAreSent(h, p);
    }
    if i :| 0 <= i < |h| && FinalAt(h, i, b) && |all| - |Finals(h[..i + 1])| < limit {
      var p := PositionOfFinal(h, i, b);
      AmongLastN(all, p, limit);
    }
  }

  lemma PositionOfFinal(h: seq<Emitted>, i: nat, b: BarKey) returns (p: nat)
    requires i < |h| && FinalAt(h, i, b)
    ensures p < |Finals(h)| && Finals(h)[p] == b && p + 1 == |Finals(h[..i + 1])|
  {
    p := |Finals(h[..i])|;
    assert Front(h[..i + 1]) == h[..i] && Last(h[..i + 1]) == h[i];
    FinalsGrow(h, i + 1, |h|);
    assert h[..|h|] == h;
    assert Finals(h)[p] == Finals(h)[..p + 1][p];
  }

  lemma PositionInLastN(all: seq<BarKey>, limit: nat, b: BarKey) returns (p: nat)
    requires b in LastN(all, limit)
    ensures p < |all| && |all| - p <= limit && all[p] == b
  {
    var i :| 0 <= i < |LastN(all, limit)| && LastN(all, limit)[i] == b;
    p := if |all| <= limit then i else |all| - limit + i;
  }

  /**
    When an update is accepted, in terms of what was sent: unless its bar is remembered, a final always is,
    and so is an update without a sequence or with one above every sequence sent before for its chart.
   */
  lemma AcceptsIff(limit: nat, w: World, r: Request)
    requires Refines(limit, w)
    ensures Accepts(w.state, r) <==>
      && !Remembered(limit, w.history, BarKey(r.key, r.candle.start))
      && (r.isFinal || r.sourceSeq.None? || Advances(w.history, r.key, r.sourceSeq.value))
  {
    RememberedIff(limit, w, BarOf(r));
    hide Remembered, MemorySound, LiveRefines, LastN;
    MaxSeqIsGreatest(w.history, r.key);
    assert SeqsRefine(w.state.sourceSeqs, w.history);
    assert match MaxSeq(w.history, r.key)
      case None => r.key !in w.state.sourceSeqs
      case Some(n) => r.key in w.state.sourceSeqs && w.state.sourceSeqs[r.key] == n;
  }

  lemma {:induction false} RunSnoc(limit: nat, w: World, actions: seq<Action>, a: Action)
    ensures Run(limit, w, actions + [a]) == Step(limit, Run(limit, w, actions), a)
    decreases |actions|
  {
    hide Step;
    if actions == [] {
      assert actions + [a] == [a] && [a][1..] == [];
    } else {
      assert (actions + [a])[1..] == actions[1..] + [a];
      RunSnoc(limit, Step(limit, w, actions[0]), actions[1..], a);
    }
  }

  lemma FirstAction(ms: seq<Message>)
    requires ms != []
    ensures Actions(ms) == (if Calls(ms[0]).Some? then [Calls(ms[0]).value] else []) + Actions(ms[1..])
  {
  }

  lemma {:induction false} ActionsSnoc(ms: seq<Message>, m: Message)
    ensures Actions(ms + [m]) == Actions(ms) + if Calls(m).Some? then [Calls(m).value] else []
  {
    hide Calls;
    if ms == [] {
      assert ms + [m] == [m] && [m][1..] == [];
    } else {
      assert (ms + [m])[1..] == ms[1..] + [m];
      ActionsSnoc(ms[1..], m);
      FirstAction(ms);
      FirstAction(ms + [m]);
      hide Actions;
    }
  }

  /** The charts that the gateway serves. */
  predicate IsChart(symbol: string, tf: int) {
    symbol != "" && tf in {15, 30, 60, 240, 1440}
  }

  lemma ChartKeys(symbol: string, tf: int)
    requires Upper(symbol) == symbol && Trim(symbol)
    ensures MakeKey(symbol, Str(tf)) == if IsChart(symbol, tf) then Some(Key(symbol, Str(tf))) else None
  {
    hide Strip, Trim, Str, Upper;
    StripTrims(symbol);
    StrTrims(tf);
    ChartIntervals(tf);
  }

  lemma StrTrims(n: int)
    ensures Strip(Str(n)) == Str(n)
  {
    hide Strip, Str;
    StripNothing(Str(n));
  }

  lemma ChartIntervals(tf: int)
    ensures Str(tf) in {"15", "30", "60", "240", "1440"} <==> tf in {15, 30, 60, 240, 1440}
  {
    ParseStr(tf);
    ParseStr(15);
    ParseStr(30);
    ParseStr(60);
    ParseStr(240);
    ParseStr(1440);
    FiveNames();
    hide Str, ParseInt;
  }

  lemma FiveNames()
    ensures Str(15) == "15" && Str(30) == "30" && Str(60) == "60" && Str(240) == "240" && Str(1440) == "1440"
  {
    assert Dec(1) == "1" && Dec(2) == "2" && Dec(3) == "3" && Dec(6) == "6";
    assert Dec(14) == "14" && Dec(24) == "24" && Dec(144) == "144";
  }

  /** What a decoded event should add to the history: one update, one reconcile note, or nothing. */
  ghost function Addition(limit: nat, h: seq<Emitted>, e: LiveEvent): seq<Emitted> {
    var key, seqNo := Key(e.symbol, Str(e.tf)), |h| + 1;
    if !IsChart(e.symbol, e.tf) then []
    else if e.eventType == Reconcile then
      var reason := if e.reason.None? || e.reason.value == "" then "broker_reconcile" else e.reason.value;
      [ReconcileNote(key, e.candle, reason, e.source, e.sourceSeq, seqNo)]
    else if Remembered(limit, h, BarKey(key, e.candle.start)) then []
    else if e.isFinal || e.sourceSeq.None? || Advances(h, key, e.sourceSeq.value) then
      [Update(key, e.candle, e.isFinal, if e.source == "" then "unknown" else e.source, e.sourceSeq, seqNo)]
    else []
  }

  /**
    The history is determined by the messages alone: each one that is decoded and active, and not cut off
    before the lock, sends what Addition says, and no other sends anything.
   */
  lemma NextMessage(limit: nat, ms: seq<Message>, m: Message)
    requires m.event.Some? ==> WellFormed(m.event.value)
    ensures var h := Sent(limit, ms);
      Sent(limit, ms + [m]) == h +
        if m.event.None? || !m.active || (m.ending == LockCut && m.event.value.eventType != Reconcile) then []
        else Addition(limit, h, m.event.value)
  {
    hide Refines, Orderly, Run, RunMessages, Actions, Nothing, MakeKey, IsChart, Remembered, Advances, Upsert, Accepts;
    var start := World(Nothing(), []);
    GatewayRefines(limit, ms);
    GatewayIsARun(limit, start, ms);
    ActionsSnoc(ms, m);
    var w := Run(limit, start, Actions(ms));
    assert w == World(RunMessages(limit, Nothing(), ms), Sent(limit, ms));
    if m.event.Some? {
      var e := m.event.value;
      ChartKeys(e.symbol, e.tf);
    }
    if Calls(m).Some? {
      RunSnoc(limit, start, Actions(ms), Calls(m).value);
      RefinedNumber(limit, w);
      if Calls(m).value.Live? {
        AcceptsIff(limit, w, Calls(m).value.r);
      }
    } else {
      assert Actions(ms) + [] == Actions(ms);
    }
  }

  lemma RefinedNumber(limit: nat, w: World)
    requires Refines(limit, w)
    ensures w.state.eventSeq == |w.history|
  {
  }

  // ----- The gateway's counters -----

  function RunGateway(limit: nat, s: State, g: GatewayStats, ms: seq<Message>): GatewayStats
    decreases |ms|
  {
    if ms == [] then g else RunGateway(limit, HandleState(limit, s, ms[0]), HandleStats(s, g, ms[0]), ms[1..])
  }

  /** The message ends without ack, nak or term: a cancellation, or an inactive drop whose ack raised. */
  predicate Unsettled(m: Message) {
    m.event.Some? && if m.active then m.ending in {AckCut, LockCut, FanOutCut} else m.ending != AckArrives
  }

  function CountUnsettled(ms: seq<Message>): nat {
    if ms == [] then 0 else (if Unsettled(ms[0]) then 1 else 0) + CountUnsettled(ms[1..])
  }

  function CountCutOff(limit: nat, s: State, ms: seq<Message>): nat
    decreases |ms|
  {
    if ms == [] then 0
    else (if CutOff(s, ms[0]) then 1 else 0) + CountCutOff(limit, HandleState(limit, s, ms[0]), ms[1..])
  }

  /** Of the messages seen, c were cut off in their call and n never settled; all others are counted once. */
  predicate Settled(g: GatewayStats, c: nat, n: nat) {
    && g.seen == g.fanout + g.fanoutDrop + g.inactiveDrop + g.schemaDrop + c
    && g.seen == g.ack + g.nak + g.term + n
    && g.schemaDrop == g.term && g.redelivery <= g.seen
  }

  lemma StepSettles(s: State, g: GatewayStats, m: Message, c: nat, n: nat)
    requires Settled(g, c, n)
    ensures Settled(HandleStats(s, g, m), c + (if CutOff(s, m) then 1 else 0), n + (if Unsettled(m) then 1 else 0))
  {
    hide Fans, ActionOf;
  }

  /** Over every run: sent on, dropped for one reason, or cut off; and acked, refused, terminated or unsettled. */
  lemma {:induction false} GatewayAccounts(limit: nat, s: State, g: GatewayStats, ms: seq<Message>, c: nat, n: nat)
    requires Settled(g, c, n)
    ensures Settled(RunGateway(limit, s, g, ms), c + CountCutOff(limit, s, ms), n + CountUnsettled(ms))
    decreases |ms|
  {
    hide HandleState, HandleStats, CutOff, Unsettled, Settled;
    if ms != [] {
      var m := ms[0];
      StepSettles(s, g, m, c, n);
      GatewayAccounts(limit, HandleState(limit, s, m), HandleStats(s, g, m), ms[1..],
                      c + (if CutOff(s, m) then 1 else 0), n + (if Unsettled(m) then 1 else 0));
    }
  }

  const NO_COUNTS := GatewayStats(0, 0, 0, 0, 0, 0, 0, 0, 0)

  function One(b: bool): nat {
    if b then 1 else 0
  }

  lemma {:induction false} RunGatewaySnoc(limit: nat, s: State, g: GatewayStats, ms: seq<Message>, m: Message)
    ensures RunGateway(limit, s, g, ms + [m]) == HandleStats(RunMessages(limit, s, ms), RunGateway(limit, s, g, ms), m)
    decreases |ms|
  {
    hide HandleState, HandleStats;
    if ms == [] {
      assert ms + [m] == [m] && [m][1..] == [];
    } else {
      assert (ms + [m])[1..] == ms[1..] + [m];
      RunGatewaySnoc(limit, HandleState(limit, s, ms[0]), HandleStats(s, g, ms[0]), ms[1..], m);
    }
  }

  /** The message's call is cancelled while it waits for the lock. */
  predicate Waits(m: Message) {
    && m.event.Some? && m.active && m.ending == LockCut && m.event.value.eventType != Reconcile
    && IsChart(m.event.value.symbol, m.event.value.tf)
  }

  /**
    What one more message counts, in terms of the histories before and after it: a fan-out exactly when it
    sent something and the sending was not cut off, a drop exactly when it sent nothing.
   */
  lemma NextCounts(limit: nat, ms: seq<Message>, m: Message)
    requires m.event.Some? ==> WellFormed(m.event.value)
    ensures var g := RunGateway(limit, Nothing(), NO_COUNTS, ms);
      var decoded, sends := m.event.Some?, |Sent(limit, ms + [m])| > |Sent(limit, ms)|;
      RunGateway(limit, Nothing(), NO_COUNTS, ms + [m]) == GatewayStats(
        g.seen + 1,
        g.fanout + One(sends && m.ending != FanOutRaises && m.ending != FanOutCut),
        g.fanoutDrop + One(decoded && m.active && !sends && !Waits(m)),
        g.inactiveDrop + One(decoded && !m.active),
        g.ack + One(decoded && m.ending == AckArrives),
        g.nak + One(decoded && m.active && (m.ending == AckRaises || m.ending == FanOutRaises)),
        g.term + One(!decoded), g.schemaDrop + One(!decoded), g.redelivery + One(m.numDelivered > 1))
  {
    hide RunGateway, Sent, RunMessages, Nothing, Accepts, IsChart, MakeKey, Addition, WellFormed;
    var s := RunMessages(limit, Nothing(), ms);
    RunGatewaySnoc(limit, Nothing(), NO_COUNTS, ms, m);
    FansIffSends(limit, ms, m);
    if m.event.Some? {
      ChartOf(m.event.value);
    }
  }

  lemma ChartOf(e: LiveEvent)
    requires WellFormed(e)
    ensures MakeKey(e.symbol, Str(e.tf)).Some? <==> IsChart(e.symbol, e.tf)
  {
    hide MakeKey, IsChart, Str, Upper, Trim;
    ChartKeys(e.symbol, e.tf);
  }

  lemma FansIffSends(limit: nat, ms: seq<Message>, m: Message)
    ensures |Sent(limit, ms + [m])| > |Sent(limit, ms)| <==>
      Calls(m).Some? && Fans(RunMessages(limit, Nothing(), ms), Calls(m))
  {
    hide Run, RunMessages, Actions, Nothing, Calls, Upsert, Accepts;
    var start := World(Nothing(), []);
    GatewayIsARun(limit, start, ms);
    ActionsSnoc(ms, m);
    if Calls(m).Some? {
      RunSnoc(limit, start, Actions(ms), Calls(m).value);
    } else {
      assert Actions(ms) + [] == Actions(ms);
    }
  }
}
