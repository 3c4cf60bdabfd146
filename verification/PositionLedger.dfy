/**
  The position ledger: what one exchange execution does to the in-memory record of a position
  (execution_handler.py, execution_store_ops.py, execution_funding.py) and to its database row and
  fills (positions_repo.py), and when the two tell the same story.

  Quantities are whole lots (QtyGrid says why), money is real, and prices are per lot.
 */
module PositionLedger {
  import opened Options

  datatype PosSide = Long | Short
  datatype Strategy = Zone | Manual

  // ----- The in-memory record -----

  datatype Fill = Fill(pnl: real, closeFee: real, price: Option<real>, qty: nat, time: string)

  /** position_fills: a dictionary from labels to fills, in insertion order. */
  datatype Entry = Entry(name: string, fill: Fill)

  datatype Rec = Rec(
    symbol: string, side: PosSide, strategy: Strategy,
    entryPrice: real, entrySize: nat, currentSize: nat, openFee: real, execValue: real, openFeeRate: real,
    entryTime: string, exitTime: string, closed: bool, fills: seq<Entry>)

  predicate HasLabel(fills: seq<Entry>, name: string) {
    fills != [] && (fills[0].name == name || HasLabel(fills[1..], name))
  }

  /** fills[name] = f: a known label is overwritten in place, a new one is appended. */
  function Put(fills: seq<Entry>, name: string, f: Fill): seq<Entry> {
    if fills == [] then [Entry(name, f)]
    else if fills[0].name == name then [Entry(name, f)] + fills[1..]
    else [fills[0]] + Put(fills[1..], name, f)
  }

  function PnlSum(fills: seq<Entry>): real {
    if fills == [] then 0.0 else fills[0].fill.pnl + PnlSum(fills[1..])
  }

  function CloseFeeSum(fills: seq<Entry>): real {
    if fills == [] then 0.0 else fills[0].fill.closeFee + CloseFeeSum(fills[1..])
  }

  function ClosedQty(fills: seq<Entry>): nat {
    if fills == [] then 0 else fills[0].fill.qty + ClosedQty(fills[1..])
  }

  /** The size that the fills imply: entry size minus closed quantity, not below zero. */
  function Recalc(r: Rec): nat {
    if r.entrySize >= ClosedQty(r.fills) then r.entrySize - ClosedQty(r.fills) else 0
  }

  /** The net profit that the final alert reports. */
  function NetPnl(r: Rec): real {
    PnlSum(r.fills) - CloseFeeSum(r.fills) - r.openFee
  }

  function Notional(price: real, qty: nat): real {
    price * qty as real
  }

  function EstimatedOpenFee(price: real, qty: nat, rate: real): real {
    Notional(price, qty) * rate
  }

  // ----- The database row -----

  datatype FillKind = TP | SL | EXIT | FUNDING

  datatype DbFill = DbFill(kind: FillKind, price: real, qty: nat, pnl: real, fee: real)

  datatype Row = Row(
    entryPrice: real, entryQty: nat, entryValue: real, feeOpen: real, closed: bool,
    feeClose: real, pnlGross: real, pnlNet: real, fills: seq<DbFill>)

  function DbPnl(fills: seq<DbFill>): real {
    if fills == [] then 0.0 else fills[0].pnl + DbPnl(fills[1..])
  }

  /** Funding is not a closing fill, so its fee is not summed. */
  function DbFee(fills: seq<DbFill>): real {
    if fills == [] then 0.0 else (if fills[0].kind == FUNDING then 0.0 else fills[0].fee) + DbFee(fills[1..])
  }

  /** INSERT ... ON DUPLICATE KEY UPDATE: a known row accumulates and keeps its closed flag. */
  function UpsertRow(rows: map<string, Row>, key: string, price: real, qty: nat, fee: real): map<string, Row> {
    var value := Notional(price, qty);
    if key !in rows then
      rows[key := Row(price, qty, value, fee, false, 0.0, 0.0, 0.0, [])]
    else
      var row := rows[key];
      var qty' := row.entryQty + qty;
      var value' := row.entryValue + value;
      rows[key := row.(entryQty := qty', entryValue := value', feeOpen := row.feeOpen + fee,
                       entryPrice := if qty' > 0 then value' / qty' as real else row.entryPrice)]
  }

  function InsertFill(rows: map<string, Row>, key: string, f: DbFill): map<string, Row> {
    if key !in rows then rows else rows[key := rows[key].(fills := rows[key].fills + [f])]
  }

  function Finalized(row: Row): Row {
    var gross, feeClose := DbPnl(row.fills), DbFee(row.fills);
    row.(closed := true, feeClose := feeClose, pnlGross := gross, pnlNet := gross - (row.feeOpen + feeClose))
  }

  function FinalizeRow(rows: map<string, Row>, key: string): map<string, Row> {
    if key !in rows then rows else rows[key := Finalized(rows[key])]
  }

  // ----- Executions -----

  datatype OrderSide = Buy | Sell
  datatype StopType = NoStop | TakeProfit | StopLoss | OtherStop

  /** One execution; zoneKey and tpMarket are what the order key's text says. */
  datatype Execution = Execution(
    usedKey: string, zoneKey: bool, tpMarket: bool, symbol: string, side: OrderSide, stop: StopType, funding: bool,
    pnl: real, fee: real, qty: nat, price: real, value: real, feeRate: real, closedSize: nat, time: string)

  /** Which of the three database calls of an execution succeed. */
  datatype DbOk = DbOk(upsert: bool, insert: bool, finalize: bool)

  predicate IsOpen(x: Execution) {
    x.usedKey != "" && x.closedSize == 0 && x.pnl == 0.0 && x.qty > 0 && x.stop == NoStop && !x.funding
  }

  predicate IsClose(x: Execution) {
    x.usedKey != "" && x.closedSize > 0 && x.qty > 0 && x.stop == NoStop && !x.funding
  }

  /** The side whose size an opening, or a funding, execution concerns. */
  function OpenedSide(x: Execution): PosSide {
    if x.side == Buy then Long else Short
  }

  /** The side that a closing order reduces. */
  function ReducedSide(x: Execution): PosSide {
    if x.side == Buy then Short else Long
  }

  function SideName(s: PosSide): string {
    if s == Long then "Long" else "Short"
  }

  function ManualKey(symbol: string, side: PosSide): string {
    "manual|" + symbol + "|" + SideName(side)
  }

  function EntryKey(x: Execution): string {
    if x.zoneKey then x.usedKey else ManualKey(x.symbol, OpenedSide(x))
  }

  // ----- What each branch does to the record -----

  function NewRec(x: Execution): Rec {
    Rec(x.symbol, OpenedSide(x), if x.zoneKey then Zone else Manual, x.price, x.qty, x.qty, x.fee, x.value,
        if x.value != 0.0 then x.fee / x.value else x.feeRate, x.time, "", false, [])
  }

  function AddEntry(r: Rec, x: Execution): Rec
    requires x.qty > 0
  {
    var size := r.entrySize + x.qty;
    var value := r.execValue + Notional(x.price, x.qty);
    var fee := r.openFee + x.fee;
    r.(entryPrice := (Notional(r.entryPrice, r.entrySize) + Notional(x.price, x.qty)) / size as real,
       entrySize := size, currentSize := r.currentSize + x.qty, openFee := fee, execValue := value,
       openFeeRate := if value != 0.0 then fee / value else x.feeRate)
  }

  function FillOf(x: Execution): Fill {
    Fill(x.pnl, x.fee, Some(x.price), x.qty, x.time)
  }

  function Min(a: nat, b: nat): nat {
    if a <= b then a else b
  }

  /** A take-profit fill: record it, then shrink the size to what the fills imply. */
  function TpRec(r: Rec, x: Execution): Rec {
    var filled := r.(fills := Put(r.fills, "TP_" + x.time, FillOf(x)));
    var size := Min(filled.currentSize, Recalc(filled));
    filled.(currentSize := size, closed := r.closed || size == 0, exitTime := if size == 0 then x.time else r.exitTime)
  }

  function SizeBefore(r: Rec): nat {
    Min(r.currentSize, Recalc(r))
  }

  predicate FullyCloses(r: Rec, x: Execution) {
    SizeBefore(r) <= x.qty
  }

  predicate ManualExit(x: Execution) {
    !x.zoneKey
  }

  function CloseLabel(r: Rec, x: Execution): string {
    if !FullyCloses(r, x) then "Manual_Reduce_" + x.time
    else if ManualExit(x) || r.strategy == Manual then "Manual_Exit"
    else "Zone_Strategy_Exit"
  }

  /** A market close: reconcile the size, subtract, and record the fill under its label. */
  function CloseRec(r: Rec, x: Execution): Rec {
    var full := FullyCloses(r, x);
    r.(currentSize := if full then 0 else SizeBefore(r) - x.qty,
       fills := Put(r.fills, CloseLabel(r, x), FillOf(x)),
       closed := r.closed || full,
       exitTime := if full then x.time else r.exitTime)
  }

  /** A manual partial close in profit is booked as a take-profit. */
  function CloseKind(r: Rec, x: Execution): FillKind {
    if ManualExit(x) && !FullyCloses(r, x)
       && x.pnl - (EstimatedOpenFee(r.entryPrice, x.qty, r.openFeeRate) + x.fee) >= 0.0
    then TP else EXIT
  }

  function SlRec(r: Rec, x: Execution): Rec {
    r.(closed := true, exitTime := x.time, fills := Put(r.fills, "SL", FillOf(x)))
  }

  function FundingRec(r: Rec, x: Execution): Rec {
    r.(fills := Put(r.fills, "Funding_" + x.time, Fill(-x.fee, 0.0, None, 0, x.time)))
  }

  // ----- Saving -----

  predicate Before(a: string, b: string) {
    if b == "" then false
    else if a == "" then true
    else a[0] < b[0] || (a[0] == b[0] && Before(a[1..], b[1..]))
  }

  function InsertNewestFirst(e: Entry, sorted: seq<Entry>): seq<Entry> {
    if sorted == [] || !Before(e.fill.time, sorted[0].fill.time) then [e] + sorted
    else [sorted[0]] + InsertNewestFirst(e, sorted[1..])
  }

  function NewestFirst(fills: seq<Entry>): (r: seq<Entry>) {
    if fills == [] then [] else InsertNewestFirst(fills[0], NewestFirst(fills[1..]))
  }

  /** No fill comes after an older one. */
  predicate Descending(fills: seq<Entry>) {
    |fills| < 2 || (!Before(fills[0].fill.time, fills[1].fill.time) && Descending(fills[1..]))
  }

  lemma {:induction false} BeforeIsOneWay(a: string, b: string)
    requires Before(a, b)
    ensures !Before(b, a)
  {
    if a != "" && a[0] == b[0] {
      BeforeIsOneWay(a[1..], b[1..]);
    }
  }

  /** Times compare as texts do: by the first character that differs, a text before its extensions. */
  lemma {:induction false} BeforeIsLexicographic(a: string, b: string)
    ensures Before(a, b) <==>
      exists i :: 0 <= i <= |a| && i < |b| && a[..i] == b[..i] && (i == |a| || a[i] < b[i])
  {
    if a != "" && b != "" && a[0] == b[0] {
      BeforeIsLexicographic(a[1..], b[1..]);
      if i :| 0 <= i < |a| && i < |b[1..]| && a[1..][..i] == b[1..][..i] && (i == |a[1..]| || a[1..][i] < b[1..][i]) {
        assert a[..i + 1] == [a[0]] + a[1..][..i] && b[..i + 1] == [b[0]] + b[1..][..i];
      }
      if i :| 0 <= i <= |a| && i < |b| && a[..i] == b[..i] && (i == |a| || a[i] < b[i]) {
        assert i > 0;
        assert a[..i][1..] == a[1..][..i - 1] && b[..i][1..] == b[1..][..i - 1];
      }
    } else {
      assert a[..0] == b[..0];
      if a != "" && b != "" {
        forall i | 0 < i <= |a| && i < |b|
          ensures a[..i] != b[..i]
        {
          assert a[..i][0] == a[0] && b[..i][0] == b[0];
        }
      }
    }
  }

  lemma {:induction false} NeverBeforeItself(a: string)
    ensures !Before(a, a)
  {
    if a != "" {
      NeverBeforeItself(a[1..]);
    }
  }

  lemma {:induction false} NotBeforeThenBefore(a: string, b: string, c: string)
    requires !Before(b, a) && Before(b, c)
    ensures Before(a, c)
  {
    if a != "" && b != "" && a[0] == b[0] == c[0] {
      NotBeforeThenBefore(a[1..], b[1..], c[1..]);
    }
  }

  lemma {:induction false} InsertKeepsDescending(e: Entry, sorted: seq<Entry>)
    requires Descending(sorted)
    ensures Descending(InsertNewestFirst(e, sorted))
    ensures multiset(InsertNewestFirst(e, sorted)) == multiset(sorted) + multiset{e}
  {
    if sorted != [] && Before(e.fill.time, sorted[0].fill.time) {
      BeforeIsOneWay(e.fill.time, sorted[0].fill.time);
      InsertKeepsDescending(e, sorted[1..]);
      assert sorted == [sorted[0]] + sorted[1..];
    }
  }

  /** Saving orders the fills by time, newest first, and neither loses nor invents one by doing so. */
  lemma {:induction false} NewestFirstSorts(fills: seq<Entry>)
    ensures Descending(NewestFirst(fills)) && multiset(NewestFirst(fills)) == multiset(fills)
  {
    if fills != [] {
      NewestFirstSorts(fills[1..]);
      InsertKeepsDescending(fills[0], NewestFirst(fills[1..]));
      assert fills == [fills[0]] + fills[1..];
    }
  }

  /** The fills of one time, in their order. */
  function FillsAt(fills: seq<Entry>, time: string): seq<Entry> {
    if fills == [] then []
    else (if fills[0].fill.time == time then [fills[0]] else []) + FillsAt(fills[1..], time)
  }

  lemma {:induction false} InsertKeepsTies(e: Entry, sorted: seq<Entry>, time: string)
    ensures FillsAt(InsertNewestFirst(e, sorted), time) == FillsAt([e] + sorted, time)
  {
    assert ([e] + sorted)[1..] == sorted;
    if sorted != [] && Before(e.fill.time, sorted[0].fill.time) {
      NeverBeforeItself(e.fill.time);
      InsertKeepsTies(e, sorted[1..], time);
      assert ([e] + sorted[1..])[1..] == sorted[1..];
      assert InsertNewestFirst(e, sorted)[1..] == InsertNewestFirst(e, sorted[1..]);
    }
  }

  /** Fills of one time stay in their order. */
  lemma {:induction false} TiesKeepOrder(fills: seq<Entry>, time: string)
    ensures FillsAt(NewestFirst(fills), time) == FillsAt(fills, time)
  {
    if fills != [] {
      var sorted := NewestFirst(fills[1..]);
      TiesKeepOrder(fills[1..], time);
      InsertKeepsTies(fills[0], sorted, time);
      assert ([fills[0]] + sorted)[1..] == sorted;
    }
  }

  lemma {:induction false} DescendingThroughout(fills: seq<Entry>, i: nat, j: nat)
    requires Descending(fills) && i < j < |fills|
    ensures !Before(fills[i].fill.time, fills[j].fill.time)
    decreases |fills|
  {
    if i > 0 {
      DescendingThroughout(fills[1..], i - 1, j - 1);
    } else if j > 1 {
      DescendingThroughout(fills[1..], 0, j - 1);
      var a, b, c := fills[0].fill.time, fills[1].fill.time, fills[j].fill.time;
      if Before(a, c) {
        NotBeforeThenBefore(b, a, c);
      }
    }
  }

  /** Trimming keeps maxFills fills, and drops none that is newer than one it keeps. */
  lemma TrimKeepsNewest(r: Rec, maxFills: nat) returns (dropped: seq<Entry>)
    ensures var kept := Trim(r, maxFills).fills;
      && Trim(r, maxFills) == r.(fills := kept)
      && multiset(kept) + multiset(dropped) == multiset(r.fills)
      && (|r.fills| <= maxFills ==> kept == r.fills) && (|r.fills| > maxFills ==> |kept| == maxFills)
      && forall a, b :: a in kept && b in dropped ==> !Before(a.fill.time, b.fill.time)
  {
    dropped := [];
    if |r.fills| > maxFills {
      hide NewestFirst, Descending, Before;
      var sorted := NewestFirst(r.fills);
      NewestFirstSorts(r.fills);
      assert |sorted| == |multiset(sorted)| == |r.fills|;
      dropped := sorted[maxFills..];
      assert sorted == sorted[..maxFills] + dropped;
      SplitDescending(sorted, maxFills);
    }
  }

  lemma SplitDescending(sorted: seq<Entry>, n: nat)
    requires Descending(sorted) && n <= |sorted|
    ensures forall a, b :: a in sorted[..n] && b in sorted[n..] ==> !Before(a.fill.time, b.fill.time)
  {
    hide Descending, Before;
    forall a, b | a in sorted[..n] && b in sorted[n..]
      ensures !Before(a.fill.time, b.fill.time)
    {
      var i :| 0 <= i < n && sorted[i] == a;
      var j :| 0 <= j < |sorted| - n && sorted[n..][j] == b;
      DescendingThroughout(sorted, i, n + j);
    }
  }

  /** Saving keeps the newest maxFills fills of a record that has more, in memory too. */
  function Trim(r: Rec, maxFills: nat): Rec {
    if |r.fills| <= maxFills then r
    else
      var sorted := NewestFirst(r.fills);
      r.(fills := if |sorted| <= maxFills then sorted else sorted[..maxFills])
  }

  // ----- Which record an execution concerns -----

  datatype Store = Store(order: seq<string>, recs: map<string, Rec>, currentLink: string, lastOrder: string)

  predicate OpenFor(s: Store, key: string, symbol: string, side: PosSide) {
    key in s.recs && !s.recs[key].closed && s.recs[key].symbol == symbol && s.recs[key].side == side
  }

  /** The first key in store order among those with the latest entry time. */
  function Newest(s: Store, order: seq<string>, symbol: string, side: PosSide): (r: Option<string>)
    ensures r.Some? ==> OpenFor(s, r.value, symbol, side) && r.value in order
    ensures r.None? ==> forall k :: k in order ==> !OpenFor(s, k, symbol, side)
  {
    if order == [] then None
    else
      var last := order[|order| - 1];
      var before := Newest(s, order[..|order| - 1], symbol, side);
      if !OpenFor(s, last, symbol, side) then before
      else if before.None? || Before(s.recs[before.value].entryTime, s.recs[last].entryTime) then Some(last)
      else before
  }

  function Resolve(s: Store, symbol: string, side: PosSide, usedKey: Option<string>): Option<string> {
    if usedKey.Some? && OpenFor(s, usedKey.value, symbol, side) then usedKey
    else
      match Newest(s, s.order, symbol, side)
      case Some(k) => Some(k)
      case None =>
        if s.currentLink != "" && OpenFor(s, s.currentLink, symbol, side) then Some(s.currentLink)
        else if s.lastOrder != "" && OpenFor(s, s.lastOrder, symbol, side) then Some(s.lastOrder)
        else None
  }

  /** The store lists exactly its keys. */
  ghost predicate Listed(s: Store) {
    forall k :: k in s.order <==> k in s.recs
  }

  /**
    A close finds a record exactly when some record of that symbol and side is open, so neither of the
    two remembered order ids is ever needed as a fallback.
   */
  lemma ResolveIsComplete(s: Store, symbol: string, side: PosSide, usedKey: Option<string>)
    requires Listed(s)
    ensures Resolve(s, symbol, side, usedKey).Some? <==> exists k :: OpenFor(s, k, symbol, side)
    ensures Resolve(s, symbol, side, usedKey).Some?
      ==> OpenFor(s, Resolve(s, symbol, side, usedKey).value, symbol, side)
    ensures Resolve(s, symbol, side, usedKey) ==
      if usedKey.Some? && OpenFor(s, usedKey.value, symbol, side) then usedKey
      else Newest(s, s.order, symbol, side)
  {
    if Resolve(s, symbol, side, usedKey).Some? {
      assert OpenFor(s, Resolve(s, symbol, side, usedKey).value, symbol, side);
    }
    if k :| OpenFor(s, k, symbol, side) {
      assert k in s.order;
      assert Newest(s, s.order, symbol, side).Some?;
    }
  }

  /**
    The record at this position of the store is open for the symbol and side; none that is has a later
    entry time, and those listed before it have strictly earlier ones.
   */
  ghost predicate LatestOpen(s: Store, order: seq<string>, i: nat, symbol: string, side: PosSide) {
    && i < |order| && OpenFor(s, order[i], symbol, side)
    && forall j :: 0 <= j < |order| && OpenFor(s, order[j], symbol, side) ==>
         && !Before(s.recs[order[i]].entryTime, s.recs[order[j]].entryTime)
         && (j < i ==> Before(s.recs[order[j]].entryTime, s.recs[order[i]].entryTime))
  }

  /** One more record at the end takes over exactly when its entry time is later. */
  lemma LatestGrows(s: Store, order: seq<string>, last: string, i: nat, symbol: string, side: PosSide)
    requires LatestOpen(s, order, i, symbol, side)
    ensures var takesOver := OpenFor(s, last, symbol, side)
        && Before(s.recs[order[i]].entryTime, s.recs[last].entryTime);
      LatestOpen(s, order + [last], if takesOver then |order| else i, symbol, side)
  {
    var all := order + [last];
    var best := s.recs[order[i]].entryTime;
    assert forall j :: 0 <= j < |order| ==> all[j] == order[j];
    if OpenFor(s, last, symbol, side) && Before(best, s.recs[last].entryTime) {
      NeverBeforeItself(s.recs[last].entryTime);
      forall j | 0 <= j < |order| && OpenFor(s, order[j], symbol, side)
        ensures Before(s.recs[order[j]].entryTime, s.recs[last].entryTime)
        ensures !Before(s.recs[last].entryTime, s.recs[order[j]].entryTime)
      {
        NotBeforeThenBefore(s.recs[order[j]].entryTime, best, s.recs[last].entryTime);
        BeforeIsOneWay(s.recs[order[j]].entryTime, s.recs[last].entryTime);
      }
    }
  }

  lemma {:induction false} NewestIsLatest(s: Store, order: seq<string>, symbol: string, side: PosSide)
    returns (i: nat)
    requires Newest(s, order, symbol, side).Some?
    ensures LatestOpen(s, order, i, symbol, side) && Newest(s, order, symbol, side) == Some(order[i])
  {
    var front, last := order[..|order| - 1], order[|order| - 1];
    assert order == front + [last];
    if Newest(s, front, symbol, side).Some? {
      i := NewestIsLatest(s, front, symbol, side);
      LatestGrows(s, front, last, i, symbol, side);
      if OpenFor(s, last, symbol, side) && Before(s.recs[front[i]].entryTime, s.recs[last].entryTime) {
        i := |front|;
      }
    } else {
      i := |front|;
      assert forall j :: 0 <= j < |front| ==> order[j] in front;
      NeverBeforeItself(s.recs[last].entryTime);
    }
  }

  /** There is at most one such position. */
  lemma OneLatest(s: Store, i: nat, j: nat, symbol: string, side: PosSide)
    requires LatestOpen(s, s.order, i, symbol, side) && LatestOpen(s, s.order, j, symbol, side)
    ensures i == j
  {
  }

  // ----- One execution -----

  datatype Ledger = Ledger(store: Store, rows: map<string, Row>)

  function SetRec(s: Store, key: string, r: Rec): Store {
    s.(recs := s.recs[key := r], order := if key in s.recs then s.order else s.order + [key])
  }

  /** Trimming on save, of the records that fit into the file. */
  function Saved(s: Store, kept: seq<string>, maxFills: nat): Store {
    s.(recs := map k | k in s.recs :: if k in kept then Trim(s.recs[k], maxFills) else s.recs[k])
  }

  function OpenStep(l: Ledger, x: Execution, ok: DbOk): Ledger
    requires x.qty > 0
  {
    var key := EntryKey(x);
    var rows := if ok.upsert then UpsertRow(l.rows, key, x.price, x.qty, x.fee) else l.rows;
    if key in l.store.recs && !l.store.recs[key].closed then
      Ledger(SetRec(l.store, key, AddEntry(l.store.recs[key], x)), rows)
    else
      Ledger(SetRec(l.store, key, NewRec(x)).(currentLink := key, lastOrder := key), rows)
  }

  /** Book a fill, and finalize the row when the record was closed by it. */
  function Booked(rows: map<string, Row>, key: string, f: DbFill, finalize: bool, ok: DbOk): map<string, Row> {
    var inserted := if ok.insert then InsertFill(rows, key, f) else rows;
    if finalize && ok.finalize then FinalizeRow(inserted, key) else inserted
  }

  function TpStep(l: Ledger, key: string, x: Execution, ok: DbOk): Ledger
    requires key in l.store.recs
  {
    var r := TpRec(l.store.recs[key], x);
    Ledger(SetRec(l.store, key, r),
           Booked(l.rows, key, DbFill(TP, x.price, x.qty, x.pnl, x.fee), r.currentSize == 0, ok))
  }

  function CloseStep(l: Ledger, key: string, x: Execution, ok: DbOk): Ledger
    requires key in l.store.recs
  {
    var r := l.store.recs[key];
    Ledger(SetRec(l.store, key, CloseRec(r, x)),
           Booked(l.rows, key, DbFill(CloseKind(r, x), x.price, x.qty, x.pnl, x.fee), FullyCloses(r, x), ok))
  }

  function SlStep(l: Ledger, key: string, x: Execution, ok: DbOk): Ledger
    requires key in l.store.recs
  {
    Ledger(SetRec(l.store, key, SlRec(l.store.recs[key], x)),
           Booked(l.rows, key, DbFill(SL, x.price, x.qty, x.pnl, x.fee), true, ok))
  }

  function FundingStep(l: Ledger, key: string, x: Execution, ok: DbOk): Ledger
    requires key in l.store.recs
  {
    var r := l.store.recs[key];
    Ledger(SetRec(l.store, key, FundingRec(r, x)),
           Booked(l.rows, key, DbFill(FUNDING, r.entryPrice, 0, -x.fee, 0.0), false, ok))
  }

  datatype Branch = Open | TpFill | CloseFill | SlFill | NoFill

  /** The branch that the order type selects. */
  function BranchOf(x: Execution): Branch {
    if x.usedKey == "" then NoFill
    else if IsOpen(x) then Open
    else if IsClose(x) then (if x.tpMarket then TpFill else CloseFill)
    else if x.stop == TakeProfit then TpFill
    else if x.stop == StopLoss then SlFill
    else NoFill
  }

  /** The record that a closing execution concerns. */
  function Target(s: Store, x: Execution): Option<string> {
    Resolve(s, x.symbol, ReducedSide(x), Some(x.usedKey))
  }

  /** The record that a funding payment concerns. */
  function FundingTarget(s: Store, x: Execution): Option<string> {
    Resolve(s, x.symbol, OpenedSide(x), None)
  }

  /** A closing execution without a record is skipped altogether. */
  predicate Skipped(l: Ledger, x: Execution) {
    x.usedKey == "" || (BranchOf(x) in {TpFill, CloseFill, SlFill} && Target(l.store, x).None?)
  }

  function FillStep(l: Ledger, key: string, x: Execution, ok: DbOk): Ledger
    requires key in l.store.recs
  {
    match BranchOf(x)
    case TpFill => TpStep(l, key, x, ok)
    case CloseFill => CloseStep(l, key, x, ok)
    case SlFill => SlStep(l, key, x, ok)
    case _ => l
  }

  /** The open, take-profit, close and stop-loss branches. */
  function OrderStep(l: Ledger, x: Execution, ok: DbOk): Ledger {
    if BranchOf(x) == Open then OpenStep(l, x, ok)
    else if Skipped(l, x) || BranchOf(x) == NoFill then l
    else
      var key := Target(l.store, x).value;
      if key in l.store.recs then FillStep(l, key, x, ok) else l
  }

  /** The funding branch. */
  function PaymentStep(l: Ledger, x: Execution, ok: DbOk): Ledger {
    var target := FundingTarget(l.store, x);
    if !x.funding || target.None? || target.value !in l.store.recs then l
    else FundingStep(l, target.value, x, ok)
  }

  function Save(l: Ledger, kept: seq<string>, maxFills: nat): Ledger {
    l.(store := Saved(l.store, kept, maxFills))
  }

  /** The branch of the order type; a branch that ran saves the store. */
  function Ordered(l: Ledger, x: Execution, ok: DbOk, kept: seq<string>, maxFills: nat): Ledger {
    if Skipped(l, x) || BranchOf(x) == NoFill then l else Save(OrderStep(l, x, ok), kept, maxFills)
  }

  /** The funding branch; it saves the store when it finds a record. */
  function Paid(l: Ledger, x: Execution, ok: DbOk, kept: seq<string>, maxFills: nat): Ledger {
    if !x.funding || FundingTarget(l.store, x).None? then l else Save(PaymentStep(l, x, ok), kept, maxFills)
  }

  /** One execution: the branch of its order type, then the funding branch, saving what changed. */
  function Step(l: Ledger, x: Execution, ok: DbOk, kept: seq<string>, maxFills: nat): Ledger {
    if Skipped(l, x) then l else Paid(Ordered(l, x, ok, kept, maxFills), x, ok, kept, maxFills)
  }

  // ----- No fill ever raises a size -----

  lemma SavedKeepsSizes(s: Store, kept: seq<string>, maxFills: nat)
    ensures forall k :: k in s.recs ==>
      (k in Saved(s, kept, maxFills).recs && Saved(s, kept, maxFills).recs[k].currentSize == s.recs[k].currentSize)
  {
    hide NewestFirst;
  }

  ghost predicate NoLarger(before: Store, after: Store) {
    forall k :: k in before.recs ==> k in after.recs && after.recs[k].currentSize <= before.recs[k].currentSize
  }

  lemma FillStepNeverRaises(l: Ledger, key: string, x: Execution, ok: DbOk)
    requires key in l.store.recs
    ensures NoLarger(l.store, FillStep(l, key, x, ok).store)
    ensures NoLarger(l.store, FundingStep(l, key, x, ok).store)
  {
    hide Put, Recalc, Booked, CloseLabel, CloseKind;
  }

  /** Whatever the labels, the saving and the database do: only an entry can raise a current size. */
  lemma OnlyEntriesRaiseSizes(l: Ledger, x: Execution, ok: DbOk, kept: seq<string>, maxFills: nat)
    requires BranchOf(x) != Open
    ensures NoLarger(l.store, Step(l, x, ok, kept, maxFills).store)
  {
    hide FillStep, FundingStep, Saved, Resolve, Booked;
    var ordered := OrderStep(l, x, ok);
    if !Skipped(l, x) && BranchOf(x) != NoFill {
      var key := Target(l.store, x).value;
      if key in l.store.recs {
        FillStepNeverRaises(l, key, x, ok);
      }
    }
    SavedKeepsSizes(ordered.store, kept, maxFills);
    var saved := Ordered(l, x, ok, kept, maxFills);
    assert NoLarger(l.store, saved.store);
    var target := FundingTarget(saved.store, x);
    if target.Some? && target.value in saved.store.recs {
      FillStepNeverRaises(saved, target.value, x, ok);
    }
    SavedKeepsSizes(PaymentStep(saved, x, ok).store, kept, maxFills);
  }

  // ----- Totals: the reference both ledgers are compared with -----

  /** Sums over executions: quantity and value entered, fees, gross profit, quantity closed. */
  datatype Tally = Tally(qty: int, value: real, feeOpen: real, pnl: real, feeClose: real, closed: int)

  const ZERO := Tally(0, 0.0, 0.0, 0.0, 0.0, 0)

  function Plus(a: Tally, b: Tally): Tally {
    Tally(a.qty + b.qty, a.value + b.value, a.feeOpen + b.feeOpen, a.pnl + b.pnl, a.feeClose + b.feeClose,
          a.closed + b.closed)
  }

  function EntryTally(x: Execution): Tally {
    ZERO.(qty := x.qty, value := Notional(x.price, x.qty), feeOpen := x.fee)
  }

  function FillTally(x: Execution): Tally {
    ZERO.(pnl := x.pnl, feeClose := x.fee, closed := x.qty)
  }

  function FundingTally(x: Execution): Tally {
    ZERO.(pnl := -x.fee)
  }

  function Net(t: Tally): real {
    t.pnl - t.feeClose - t.feeOpen
  }

  function RecTally(r: Rec): Tally {
    Tally(r.entrySize, r.execValue, r.openFee, PnlSum(r.fills), CloseFeeSum(r.fills), ClosedQty(r.fills))
  }

  function DbClosed(fills: seq<DbFill>): nat {
    if fills == [] then 0 else fills[0].qty + DbClosed(fills[1..])
  }

  function RowTally(row: Row): Tally {
    Tally(row.entryQty, row.entryValue, row.feeOpen, DbPnl(row.fills), DbFee(row.fills), DbClosed(row.fills))
  }

  /** Per position key: the totals since its record was last created, and since its row was. */
  datatype Totals = Totals(gen: map<string, Tally>, all: map<string, Tally>)

  function At(m: map<string, Tally>, key: string): Tally {
    if key in m then m[key] else ZERO
  }

  function Enter(t: Totals, key: string, created: bool, d: Tally): Totals {
    Totals(t.gen[key := if created then d else Plus(At(t.gen, key), d)], t.all[key := Plus(At(t.all, key), d)])
  }

  predicate CreatesRecord(s: Store, key: string) {
    key !in s.recs || s.recs[key].closed
  }

  function OrderTotals(l: Ledger, t: Totals, x: Execution): Totals {
    if BranchOf(x) == Open then Enter(t, EntryKey(x), CreatesRecord(l.store, EntryKey(x)), EntryTally(x))
    else if Skipped(l, x) || BranchOf(x) == NoFill then t
    else Enter(t, Target(l.store, x).value, false, FillTally(x))
  }

  function PaymentTotals(l: Ledger, t: Totals, x: Execution): Totals {
    if !x.funding || FundingTarget(l.store, x).None? then t
    else Enter(t, FundingTarget(l.store, x).value, false, FundingTally(x))
  }

  // ----- Both ledgers tell the reference's story -----

  predicate AveragePrice(price: real, qty: nat, value: real) {
    qty > 0 && Notional(price, qty) == value
  }

  /** The fill that a label holds, or nothing. */
  function Held(fills: seq<Entry>, name: string): Fill {
    if fills == [] then Fill(0.0, 0.0, None, 0, "")
    else if fills[0].name == name then fills[0].fill
    else Held(fills[1..], name)
  }

  /** The quantity entered minus the quantity closed before any stop-loss, not below zero. */
  function LiveSize(r: Rec): int {
    var closed := ClosedQty(r.fills) - Held(r.fills, "SL").qty;
    if r.entrySize >= closed then r.entrySize - closed else 0
  }

  /** None of the labels that only a closing fill takes. */
  predicate NoExitLabel(fills: seq<Entry>) {
    !HasLabel(fills, "SL") && !HasLabel(fills, "Manual_Exit") && !HasLabel(fills, "Zone_Strategy_Exit")
  }

  /** A stop-loss leaves the size alone, so a closed record has size zero exactly when none closed it. */
  predicate SizeStory(r: Rec) {
    && (!r.closed ==> ClosedQty(r.fills) < r.entrySize && NoExitLabel(r.fills))
    && r.currentSize == LiveSize(r)
    && (r.closed ==> (r.currentSize == 0 <==> !HasLabel(r.fills, "SL")))
  }

  predicate RecStory(r: Rec, gen: Tally) {
    RecTally(r) == gen && AveragePrice(r.entryPrice, r.entrySize, r.execValue) && SizeStory(r)
  }

  predicate RowStory(row: Row, all: Tally) {
    RowTally(row) == all && AveragePrice(row.entryPrice, row.entryQty, row.entryValue)
  }

  /** The finalized columns hold the sums of these totals. */
  predicate FinalRow(row: Row, all: Tally) {
    row.closed && row.pnlGross == all.pnl && row.feeClose == all.feeClose && row.pnlNet == Net(all)
  }

  /** The row of a closed record is final, with everything booked under the key. */
  predicate Settled(r: Rec, row: Row, all: Tally) {
    r.closed ==> FinalRow(row, all)
  }

  /** The rows are those of the records, and hold the sums of everything booked under their keys. */
  ghost predicate RowsStory(l: Ledger, t: Totals) {
    && l.rows.Keys == l.store.recs.Keys && l.rows.Keys == t.all.Keys
    && forall k :: k in l.rows ==> RowStory(l.rows[k], t.all[k]) && Settled(l.store.recs[k], l.rows[k], t.all[k])
  }

  /** The record under a key, if any, tells the sums since it was created, and has not been trimmed. */
  predicate RecKept(l: Ledger, t: Totals, key: string, maxFills: nat) {
    key in l.store.recs ==>
      key in t.gen && RecStory(l.store.recs[key], t.gen[key]) && |l.store.recs[key].fills| <= maxFills
  }

  ghost predicate Stories(l: Ledger, t: Totals, maxFills: nat) {
    RowsStory(l, t) && forall k :: k in l.store.recs ==> RecKept(l, t, k, maxFills)
  }

  /** Recording a fill adds it to every sum, and takes out the fill that its label held before. */
  lemma {:induction false} PutSums(fills: seq<Entry>, name: string, f: Fill)
    ensures var p, was := Put(fills, name, f), Held(fills, name);
      && PnlSum(p) == PnlSum(fills) - was.pnl + f.pnl
      && CloseFeeSum(p) == CloseFeeSum(fills) - was.closeFee + f.closeFee
      && ClosedQty(p) == ClosedQty(fills) - was.qty + f.qty
      && |p| == |fills| + (if HasLabel(fills, name) then 0 else 1)
      && HasLabel(p, name)
  {
    if fills != [] && fills[0].name != name {
      PutSums(fills[1..], name, f);
    }
  }

  /** What the other labels hold stays. */
  lemma {:induction false} PutLabels(fills: seq<Entry>, name: string, f: Fill, other: string)
    ensures HasLabel(Put(fills, name, f), other) <==> HasLabel(fills, other) || name == other
    ensures Held(Put(fills, name, f), other) == if name == other then f else Held(fills, other)
  {
    if fills != [] && fills[0].name != name {
      PutLabels(fills[1..], name, f, other);
    }
  }

  /** The labels with a time never are exit labels. */
  lemma TimedLabels(time: string)
    ensures "TP_" + time !in EXIT_LABELS && "Funding_" + time !in EXIT_LABELS && "Manual_Reduce_" + time !in EXIT_LABELS
  {
    assert ("TP_" + time)[0] == 'T' && ("Funding_" + time)[0] == 'F' && ("Manual_Reduce_" + time)[7] == 'R';
    assert "SL"[0] == 'S' && "Zone_Strategy_Exit"[0] == 'Z' && "Manual_Exit"[7] == 'E' && "Manual_Exit"[0] == 'M';
  }

  const EXIT_LABELS := {"SL", "Manual_Exit", "Zone_Strategy_Exit"}

  /** Recording a fill in an open record, label by label. */
  lemma RecordingKeepsLabels(fills: seq<Entry>, name: string, f: Fill)
    requires NoExitLabel(fills)
    ensures Held(fills, "SL").qty == 0
    ensures name !in EXIT_LABELS ==> NoExitLabel(Put(fills, name, f))
    ensures HasLabel(Put(fills, name, f), "SL") <==> name == "SL"
    ensures Held(Put(fills, name, f), "SL").qty == if name == "SL" then f.qty else 0
  {
    NothingHeld(fills, "SL");
    PutLabels(fills, name, f, "SL");
    PutLabels(fills, name, f, "Manual_Exit");
    PutLabels(fills, name, f, "Zone_Strategy_Exit");
  }

  lemma {:induction false} NothingHeld(fills: seq<Entry>, name: string)
    requires !HasLabel(fills, name)
    ensures Held(fills, name) == Fill(0.0, 0.0, None, 0, "")
  {
    if fills != [] {
      NothingHeld(fills[1..], name);
    }
  }

  lemma PutNew(fills: seq<Entry>, name: string, f: Fill)
    requires !HasLabel(fills, name)
    ensures var p := Put(fills, name, f);
      && PnlSum(p) == PnlSum(fills) + f.pnl && CloseFeeSum(p) == CloseFeeSum(fills) + f.closeFee
      && ClosedQty(p) == ClosedQty(fills) + f.qty && |p| == |fills| + 1 && HasLabel(p, name)
  {
    PutSums(fills, name, f);
    NothingHeld(fills, name);
  }

  /**
    Two take-profits in the same second share a label, and the second overwrites the first: the
    record's net moves by the new fill exactly when the label held nothing, or a fill netting zero.
   */
  lemma TakeProfitNetMoves(r: Rec, x: Execution)
    ensures NetPnl(TpRec(r, x)) == NetPnl(r) + x.pnl - x.fee <==>
      var was := Held(r.fills, "TP_" + x.time); !HasLabel(r.fills, "TP_" + x.time) || was.pnl == was.closeFee
  {
    hide Put, HasLabel, Held;
    PutSums(r.fills, "TP_" + x.time, FillOf(x));
    if !HasLabel(r.fills, "TP_" + x.time) {
      NothingHeld(r.fills, "TP_" + x.time);
    }
  }

  lemma {:induction false} AppendFill(fills: seq<DbFill>, f: DbFill)
    ensures DbPnl(fills + [f]) == DbPnl(fills) + f.pnl
    ensures DbFee(fills + [f]) == DbFee(fills) + if f.kind == FUNDING then 0.0 else f.fee
    ensures DbClosed(fills + [f]) == DbClosed(fills) + f.qty
  {
    if fills == [] {
      assert fills + [f] == [f];
    } else {
      AppendFill(fills[1..], f);
      assert (fills + [f])[1..] == fills[1..] + [f];
    }
  }

  lemma WeightedAverage(p: real, q: nat, value: real, price: real, qty: nat)
    requires AveragePrice(p, q, value) && qty > 0
    ensures AveragePrice((Notional(p, q) + Notional(price, qty)) / (q + qty) as real, q + qty,
      value + Notional(price, qty))
    ensures AveragePrice((value + Notional(price, qty)) / (q + qty) as real, q + qty, value + Notional(price, qty))
  {
  }

  /** A label that carries only the second is not in use; the labels of a full close need no such care. */
  predicate NewLabel(r: Rec, x: Execution) {
    match BranchOf(x)
    case TpFill => !HasLabel(r.fills, "TP_" + x.time)
    case CloseFill => FullyCloses(r, x) || !HasLabel(r.fills, CloseLabel(r, x))
    case _ => true
  }

  predicate AllOk(ok: DbOk) {
    ok.upsert && ok.insert && ok.finalize
  }

  /** What a run must provide for one execution: working database calls, a new label, room for the fill. */
  ghost predicate OrderProper(l: Ledger, x: Execution, maxFills: nat) {
    && (BranchOf(x) == Open ==> x.value == Notional(x.price, x.qty))
    && (BranchOf(x) in {TpFill, CloseFill, SlFill}
        && Target(l.store, x).Some? && Target(l.store, x).value in l.store.recs ==>
        var r := l.store.recs[Target(l.store, x).value]; NewLabel(r, x) && |r.fills| < maxFills)
  }

  ghost predicate PaymentProper(l: Ledger, x: Execution, maxFills: nat) {
    x.funding && FundingTarget(l.store, x).Some? && FundingTarget(l.store, x).value in l.store.recs ==>
      var r := l.store.recs[FundingTarget(l.store, x).value];
      !HasLabel(r.fills, "Funding_" + x.time) && |r.fills| < maxFills
  }

  lemma TpKeepsStory(r: Rec, gen: Tally, x: Execution)
    requires RecStory(r, gen) && !r.closed && !HasLabel(r.fills, "TP_" + x.time)
    ensures RecStory(TpRec(r, x), Plus(gen, FillTally(x)))
    ensures |TpRec(r, x).fills| == |r.fills| + 1
    ensures TpRec(r, x).closed <==> TpRec(r, x).currentSize == 0
  {
    hide Put, HasLabel, Held, NoExitLabel;
    TimedLabels(x.time);
    RecordingKeepsLabels(r.fills, "TP_" + x.time, FillOf(x));
    PutNew(r.fills, "TP_" + x.time, FillOf(x));
  }

  lemma CloseKeepsStory(r: Rec, gen: Tally, x: Execution)
    requires RecStory(r, gen) && !r.closed && (!FullyCloses(r, x) ==> !HasLabel(r.fills, CloseLabel(r, x)))
    ensures RecStory(CloseRec(r, x), Plus(gen, FillTally(x)))
    ensures |CloseRec(r, x).fills| == |r.fills| + 1
    ensures CloseRec(r, x).closed <==> CloseRec(r, x).currentSize == 0
  {
    CloseLabelIsNew(r, x);
    hide Put, HasLabel, Held, NoExitLabel, CloseLabel;
    PutNew(r.fills, CloseLabel(r, x), FillOf(x));
    RecordingKeepsLabels(r.fills, CloseLabel(r, x), FillOf(x));
  }

  lemma CloseLabelIsNew(r: Rec, x: Execution)
    requires NoExitLabel(r.fills) && (!FullyCloses(r, x) ==> !HasLabel(r.fills, CloseLabel(r, x)))
    ensures !HasLabel(r.fills, CloseLabel(r, x)) && CloseLabel(r, x) != "SL"
    ensures FullyCloses(r, x) <==> CloseLabel(r, x) in EXIT_LABELS
  {
    hide HasLabel, FullyCloses;
    TimedLabels(x.time);
  }

  lemma SlKeepsStory(r: Rec, gen: Tally, x: Execution)
    requires RecStory(r, gen) && !r.closed
    ensures RecStory(SlRec(r, x), Plus(gen, FillTally(x)))
    ensures |SlRec(r, x).fills| == |r.fills| + 1
    ensures SlRec(r, x).closed && SlRec(r, x).currentSize == r.currentSize
  {
    assert !HasLabel(r.fills, "SL");
    hide Put, HasLabel, Held, NoExitLabel;
    PutNew(r.fills, "SL", FillOf(x));
    RecordingKeepsLabels(r.fills, "SL", FillOf(x));
  }

  lemma FundingKeepsStory(r: Rec, gen: Tally, x: Execution)
    requires RecStory(r, gen) && !r.closed && !HasLabel(r.fills, "Funding_" + x.time)
    ensures RecStory(FundingRec(r, x), Plus(gen, FundingTally(x)))
    ensures |FundingRec(r, x).fills| == |r.fills| + 1 && !FundingRec(r, x).closed
  {
    hide Put, HasLabel, Held, NoExitLabel;
    TimedLabels(x.time);
    RecordingKeepsLabels(r.fills, "Funding_" + x.time, Fill(-x.fee, 0.0, None, 0, x.time));
    PutNew(r.fills, "Funding_" + x.time, Fill(-x.fee, 0.0, None, 0, x.time));
  }

  lemma EntryKeepsStory(r: Rec, gen: Tally, x: Execution)
    requires RecStory(r, gen) && !r.closed && x.qty > 0
    ensures RecStory(AddEntry(r, x), Plus(gen, EntryTally(x)))
  {
    WeightedAverage(r.entryPrice, r.entrySize, r.execValue, x.price, x.qty);
    NothingHeld(r.fills, "SL");
  }

  lemma NewRecHasStory(x: Execution)
    requires x.qty > 0 && x.value == Notional(x.price, x.qty)
    ensures RecStory(NewRec(x), EntryTally(x))
  {
  }

  lemma UpsertKeepsStory(rows: map<string, Row>, key: string, x: Execution, all: map<string, Tally>)
    requires x.qty > 0 && (key in rows <==> key in all) && (key in rows ==> RowStory(rows[key], all[key]))
    ensures key in UpsertRow(rows, key, x.price, x.qty, x.fee)
    ensures RowStory(UpsertRow(rows, key, x.price, x.qty, x.fee)[key], Plus(At(all, key), EntryTally(x)))
    ensures UpsertRow(rows, key, x.price, x.qty, x.fee) == rows[key := UpsertRow(rows, key, x.price, x.qty, x.fee)[key]]
  {
    if key in rows {
      WeightedAverage(rows[key].entryPrice, rows[key].entryQty, rows[key].entryValue, x.price, x.qty);
    }
  }

  function BookedTally(f: DbFill): Tally {
    ZERO.(pnl := f.pnl, feeClose := f.fee, closed := f.qty)
  }

  /** Booking a fill keeps the row in step, and finalizing it writes the net of the row's totals. */
  lemma BookedKeepsStory(rows: map<string, Row>, key: string, f: DbFill, finalize: bool, ok: DbOk, all: Tally)
    requires AllOk(ok) && key in rows && RowStory(rows[key], all)
    requires f.kind == FUNDING ==> f.fee == 0.0
    ensures key in Booked(rows, key, f, finalize, ok)
    ensures var row := Booked(rows, key, f, finalize, ok)[key];
      && RowStory(row, Plus(all, BookedTally(f)))
      && (finalize ==> FinalRow(row, Plus(all, BookedTally(f))))
    ensures Booked(rows, key, f, finalize, ok) == rows[key := Booked(rows, key, f, finalize, ok)[key]]
  {
    AppendFill(rows[key].fills, f);
  }

  // ----- What one step does under one key -----

  function StepTotals(l: Ledger, t: Totals, x: Execution, ok: DbOk, kept: seq<string>, maxFills: nat): Totals {
    if Skipped(l, x) then t
    else PaymentTotals(Ordered(l, x, ok, kept, maxFills), OrderTotals(l, t, x), x)
  }

  /** This execution starts a new record under the key. */
  predicate Starts(l: Ledger, x: Execution, key: string) {
    BranchOf(x) == Open && EntryKey(x) == key && CreatesRecord(l.store, key)
  }

  /** It adds an entry to the record under the key. */
  predicate Extends(l: Ledger, x: Execution, key: string) {
    BranchOf(x) == Open && EntryKey(x) == key && !CreatesRecord(l.store, key)
  }

  predicate IsFill(x: Execution) {
    BranchOf(x) == TpFill || BranchOf(x) == CloseFill || BranchOf(x) == SlFill
  }

  /** It is a fill of the record under the key. */
  predicate Fills(l: Ledger, x: Execution, key: string) {
    IsFill(x) && Target(l.store, x) == Some(key) && key in l.store.recs
  }

  predicate Pays(l: Ledger, x: Execution, key: string) {
    x.funding && FundingTarget(l.store, x) == Some(key) && key in l.store.recs
  }

  function FillRec(r: Rec, x: Execution): Rec {
    match BranchOf(x)
    case TpFill => TpRec(r, x)
    case CloseFill => CloseRec(r, x)
    case _ => SlRec(r, x)
  }

  function FillLabel(r: Rec, x: Execution): string {
    match BranchOf(x)
    case TpFill => "TP_" + x.time
    case CloseFill => CloseLabel(r, x)
    case _ => "SL"
  }

  function FillKindOf(r: Rec, x: Execution): FillKind {
    match BranchOf(x)
    case TpFill => TP
    case CloseFill => CloseKind(r, x)
    case _ => SL
  }

  /** All fills alike: the record takes the fill, the row books it and is finalized if that closed the record. */
  lemma FillStepIs(l: Ledger, key: string, x: Execution, ok: DbOk)
    requires key in l.store.recs && !l.store.recs[key].closed && IsFill(x)
    ensures var r := l.store.recs[key];
      && FillStep(l, key, x, ok) ==
           Ledger(SetRec(l.store, key, FillRec(r, x)),
                  Booked(l.rows, key, DbFill(FillKindOf(r, x), x.price, x.qty, x.pnl, x.fee), FillRec(r, x).closed, ok))
      && FillKindOf(r, x) != FUNDING
  {
    hide Put, Recalc, CloseLabel, Booked, SetRec, SizeBefore, IsOpen, IsClose;
  }

  /** The record and the reference under one key after the branch of the order type. */
  lemma OrderAt(l: Ledger, t: Totals, x: Execution, ok: DbOk, key: string)
    ensures var recs, gen := OrderStep(l, x, ok).store.recs, OrderTotals(l, t, x).gen;
      && (Starts(l, x, key) ==> key in recs && recs[key] == NewRec(x) && key in gen && gen[key] == EntryTally(x))
      && (Extends(l, x, key) ==>
            && key in l.store.recs && !l.store.recs[key].closed && x.qty > 0
            && key in recs && recs[key] == AddEntry(l.store.recs[key], x)
            && key in gen && gen[key] == Plus(At(t.gen, key), EntryTally(x)))
      && (Fills(l, x, key) ==>
            && !l.store.recs[key].closed && key in recs && recs[key] == FillRec(l.store.recs[key], x)
            && key in gen && gen[key] == Plus(At(t.gen, key), FillTally(x)))
      && (!Starts(l, x, key) && !Extends(l, x, key) && !Fills(l, x, key)
         ==> SameAt(l.store.recs, recs, t.gen, gen, key))
  {
    hide Put, NewRec, AddEntry, FillRec, Newest, EntryKey, UpsertRow, Booked, Plus, EntryTally, FillTally, IsOpen,
         IsClose;
    if IsFill(x) && Target(l.store, x).Some? {
      var target := Target(l.store, x).value;
      if target in l.store.recs {
        assert !l.store.recs[target].closed;
        FillStepIs(l, target, x, ok);
      }
    }
    if BranchOf(x) == Open {
      OpenHasQty(x);
    }
  }

  lemma OpenHasQty(x: Execution)
    requires BranchOf(x) == Open
    ensures x.qty > 0
  {
  }

  predicate SameAt(
    recs: map<string, Rec>, recs': map<string, Rec>, gen: map<string, Tally>, gen': map<string, Tally>,
    key: string) {
    && (key in recs' ==> key in recs && recs'[key] == recs[key])
    && (key in gen ==> key in gen' && gen'[key] == gen[key])
  }

  lemma PaymentAt(l: Ledger, t: Totals, x: Execution, ok: DbOk, key: string)
    ensures var recs, gen := PaymentStep(l, x, ok).store.recs, PaymentTotals(l, t, x).gen;
      && (Pays(l, x, key) ==>
            && !l.store.recs[key].closed && key in recs && recs[key] == FundingRec(l.store.recs[key], x)
            && key in gen && gen[key] == Plus(At(t.gen, key), FundingTally(x)))
      && (!Pays(l, x, key) ==> SameAt(l.store.recs, recs, t.gen, gen, key))
  {
    hide Put, FundingRec, Newest, Booked, Plus, FundingTally;
  }

  // ----- The rows, under working database calls alone -----

  lemma RowsUpdate(l: Ledger, t: Totals, key: string, created: bool, r: Rec, row: Row, d: Tally)
    requires RowsStory(l, t)
    requires RowStory(row, Plus(At(t.all, key), d)) && Settled(r, row, Plus(At(t.all, key), d))
    ensures RowsStory(Ledger(SetRec(l.store, key, r), l.rows[key := row]), Enter(t, key, created, d))
  {
    hide RowStory, Plus, Settled, At;
  }

  lemma RowsRemember(l: Ledger, t: Totals, key: string)
    requires RowsStory(l, t)
    ensures RowsStory(l.(store := l.store.(currentLink := key, lastOrder := key)), t)
  {
  }

  lemma RowsOpen(l: Ledger, t: Totals, x: Execution, ok: DbOk)
    requires RowsStory(l, t) && AllOk(ok) && BranchOf(x) == Open
    ensures RowsStory(OpenStep(l, x, ok), OrderTotals(l, t, x))
  {
    hide RowStory, EntryKey, Plus, EntryTally, Enter, UpsertRow, AddEntry, NewRec;
    var key := EntryKey(x);
    OpenHasQty(x);
    UpsertKeepsStory(l.rows, key, x, t.all);
    var row := UpsertRow(l.rows, key, x.price, x.qty, x.fee)[key];
    EntriesAreOpen(x);
    if key in l.store.recs && !l.store.recs[key].closed {
      ExtendedIsOpen(l.store.recs[key], x);
      RowsUpdate(l, t, key, false, AddEntry(l.store.recs[key], x), row, EntryTally(x));
    } else {
      RowsUpdate(l, t, key, true, NewRec(x), row, EntryTally(x));
      RowsRemember(Ledger(SetRec(l.store, key, NewRec(x)), l.rows[key := row]), OrderTotals(l, t, x), key);
    }
  }

  lemma EntriesAreOpen(x: Execution)
    ensures NewRec(x).fills == [] && !NewRec(x).closed
  {
  }

  lemma ExtendedIsOpen(r: Rec, x: Execution)
    requires x.qty > 0
    ensures AddEntry(r, x).fills == r.fills && AddEntry(r, x).closed == r.closed
  {
  }

  /** The row takes a fill, or a payment, while the record becomes r. */
  lemma RowsBook(l: Ledger, t: Totals, key: string, r: Rec, f: DbFill, ok: DbOk)
    requires RowsStory(l, t) && AllOk(ok) && key in l.store.recs
    requires f.kind == FUNDING ==> f.fee == 0.0
    ensures RowsStory(Ledger(SetRec(l.store, key, r), Booked(l.rows, key, f, r.closed, ok)),
      Enter(t, key, false, BookedTally(f)))
  {
    hide RowStory, Booked, Plus, Enter, BookedTally;
    BookedKeepsStory(l.rows, key, f, r.closed, ok, t.all[key]);
    RowsUpdate(l, t, key, false, r, Booked(l.rows, key, f, r.closed, ok)[key], BookedTally(f));
  }

  lemma RowsOrder(l: Ledger, t: Totals, x: Execution, ok: DbOk)
    requires RowsStory(l, t) && AllOk(ok)
    ensures RowsStory(OrderStep(l, x, ok), OrderTotals(l, t, x))
  {
    hide RowsStory, OpenStep, FillStep, Enter, Newest, FillRec, Booked, SetRec, FillKindOf;
    if BranchOf(x) == Open {
      RowsOpen(l, t, x, ok);
    } else if !Skipped(l, x) && BranchOf(x) != NoFill {
      var key := Target(l.store, x).value;
      var r := l.store.recs[key];
      FillStepIs(l, key, x, ok);
      RowsBook(l, t, key, FillRec(r, x), DbFill(FillKindOf(r, x), x.price, x.qty, x.pnl, x.fee), ok);
    }
  }

  lemma RowsPayment(l: Ledger, t: Totals, x: Execution, ok: DbOk)
    requires RowsStory(l, t) && AllOk(ok)
    ensures RowsStory(PaymentStep(l, x, ok), PaymentTotals(l, t, x))
  {
    hide RowsStory, Enter, Newest, Put, Booked, SetRec;
    if x.funding && FundingTarget(l.store, x).Some? {
      var key := FundingTarget(l.store, x).value;
      var r := l.store.recs[key];
      RowsBook(l, t, key, FundingRec(r, x), DbFill(FUNDING, r.entryPrice, 0, -x.fee, 0.0), ok);
    }
  }

  lemma RowsSave(l: Ledger, t: Totals, kept: seq<string>, maxFills: nat)
    requires RowsStory(l, t)
    ensures RowsStory(Save(l, kept, maxFills), t)
  {
    hide RowStory, NewestFirst;
  }

  lemma RowsOrdered(l: Ledger, t: Totals, x: Execution, ok: DbOk, kept: seq<string>, maxFills: nat)
    requires RowsStory(l, t) && AllOk(ok)
    ensures RowsStory(Ordered(l, x, ok, kept, maxFills), OrderTotals(l, t, x))
  {
    hide RowsStory, OrderStep, Enter, EntryKey, Newest, Save;
    RowsOrder(l, t, x, ok);
    RowsSave(OrderStep(l, x, ok), OrderTotals(l, t, x), kept, maxFills);
  }

  lemma RowsStep(l: Ledger, t: Totals, x: Execution, ok: DbOk, kept: seq<string>, maxFills: nat)
    requires RowsStory(l, t) && AllOk(ok)
    ensures RowsStory(Step(l, x, ok, kept, maxFills), StepTotals(l, t, x, ok, kept, maxFills))
  {
    hide RowsStory, Ordered, PaymentStep, OrderTotals, Enter, Newest, Save;
    if !Skipped(l, x) {
      RowsOrdered(l, t, x, ok, kept, maxFills);
      var mid, t' := Ordered(l, x, ok, kept, maxFills), OrderTotals(l, t, x);
      RowsPayment(mid, t', x, ok);
      RowsSave(PaymentStep(mid, x, ok), PaymentTotals(mid, t', x), kept, maxFills);
    }
  }

  // ----- The records, under the run's hypotheses -----

  /** One fill of any branch: the record and the reference gain the same amounts. */
  lemma FillKeepsStory(r: Rec, gen: Tally, x: Execution)
    requires RecStory(r, gen) && !r.closed && IsFill(x) && NewLabel(r, x)
    ensures RecStory(FillRec(r, x), Plus(gen, FillTally(x))) && |FillRec(r, x).fills| == |r.fills| + 1
  {
    hide RecStory, TpRec, CloseRec, SlRec, Plus, FillTally, HasLabel, IsOpen, IsClose, CloseLabel;
    if BranchOf(x) == TpFill {
      TpKeepsStory(r, gen, x);
    } else if BranchOf(x) == CloseFill {
      CloseKeepsStory(r, gen, x);
    } else {
      SlKeepsStory(r, gen, x);
    }
  }

  lemma SaveKeepsRec(l: Ledger, t: Totals, kept: seq<string>, maxFills: nat, key: string)
    requires RecKept(l, t, key, maxFills)
    ensures RecKept(Save(l, kept, maxFills), t, key, maxFills)
  {
    hide RecStory, NewestFirst;
  }

  lemma OrderKeepsRec(l: Ledger, t: Totals, x: Execution, ok: DbOk, maxFills: nat, key: string)
    requires RecKept(l, t, key, maxFills) && OrderProper(l, x, maxFills)
    ensures RecKept(OrderStep(l, x, ok), OrderTotals(l, t, x), key, maxFills)
  {
    hide OrderStep, OrderTotals, RecStory, NewRec, AddEntry, FillRec, Plus, EntryTally, FillTally, Target,
         NewLabel, EntryKey;
    OrderAt(l, t, x, ok, key);
    if Starts(l, x, key) {
      OpenHasQty(x);
      NewRecHasStory(x);
      EntriesAreOpen(x);
    } else if Extends(l, x, key) {
      EntryKeepsStory(l.store.recs[key], t.gen[key], x);
      ExtendedIsOpen(l.store.recs[key], x);
    } else if Fills(l, x, key) {
      FillKeepsStory(l.store.recs[key], t.gen[key], x);
    }
  }

  lemma PaymentKeepsRec(l: Ledger, t: Totals, x: Execution, ok: DbOk, maxFills: nat, key: string)
    requires RecKept(l, t, key, maxFills) && PaymentProper(l, x, maxFills)
    ensures RecKept(PaymentStep(l, x, ok), PaymentTotals(l, t, x), key, maxFills)
  {
    hide PaymentStep, PaymentTotals, RecStory, FundingRec, Plus, FundingTally, FundingTarget, HasLabel;
    PaymentAt(l, t, x, ok, key);
    if Pays(l, x, key) {
      FundingKeepsStory(l.store.recs[key], t.gen[key], x);
    }
  }

  /** One execution under the run's hypotheses. */
  ghost predicate Proper(l: Ledger, x: Execution, kept: seq<string>, maxFills: nat, ok: DbOk) {
    && AllOk(ok) && OrderProper(l, x, maxFills)
    && PaymentProper(Ordered(l, x, ok, kept, maxFills), x, maxFills)
  }

  lemma StepKeepsRec(l: Ledger, t: Totals, x: Execution, ok: DbOk, kept: seq<string>, maxFills: nat, key: string)
    requires RecKept(l, t, key, maxFills) && Proper(l, x, kept, maxFills, ok)
    ensures RecKept(Step(l, x, ok, kept, maxFills), StepTotals(l, t, x, ok, kept, maxFills), key, maxFills)
  {
    hide RecKept, OrderStep, PaymentStep, Newest, Save, Enter, EntryKey, OrderProper, PaymentProper;
    if !Skipped(l, x) {
      var mid, t' := Ordered(l, x, ok, kept, maxFills), OrderTotals(l, t, x);
      OrderKeepsRec(l, t, x, ok, maxFills, key);
      SaveKeepsRec(OrderStep(l, x, ok), t', kept, maxFills, key);
      PaymentKeepsRec(mid, t', x, ok, maxFills, key);
      SaveKeepsRec(PaymentStep(mid, x, ok), PaymentTotals(mid, t', x), kept, maxFills, key);
    }
  }

  lemma StepKeepsStories(l: Ledger, t: Totals, x: Execution, ok: DbOk, kept: seq<string>, maxFills: nat)
    requires Stories(l, t, maxFills) && Proper(l, x, kept, maxFills, ok)
    ensures Stories(Step(l, x, ok, kept, maxFills), StepTotals(l, t, x, ok, kept, maxFills), maxFills)
  {
    hide RowsStory, Step, StepTotals, OrderProper, PaymentProper, RecStory;
    RowsStep(l, t, x, ok, kept, maxFills);
    var l', t' := Step(l, x, ok, kept, maxFills), StepTotals(l, t, x, ok, kept, maxFills);
    forall k | k in l'.store.recs
      ensures RecKept(l', t', k, maxFills)
    {
      StepKeepsRec(l, t, x, ok, kept, maxFills, k);
    }
  }

  // ----- The records, under no hypothesis -----

  /** What a record no longer shows: the net of overwritten and trimmed fills, and whether a stop-loss closed it. */
  datatype Trace = Trace(lost: real, stopped: bool)

  const NO_TRACE := Trace(0.0, false)

  /** The net of the fill that a new one under the same label replaces. */
  function Overwritten(r: Rec, name: string): real {
    Held(r.fills, name).pnl - Held(r.fills, name).closeFee
  }

  function BranchTrace(l: Ledger, x: Execution, key: string, h: Trace): Trace {
    if Starts(l, x, key) then NO_TRACE
    else if Fills(l, x, key) then
      Trace(h.lost + Overwritten(l.store.recs[key], FillLabel(l.store.recs[key], x)),
            h.stopped || BranchOf(x) == SlFill)
    else h
  }

  /** What saving trims off a kept record. */
  function SaveTrace(l: Ledger, kept: seq<string>, maxFills: nat, key: string, h: Trace): Trace {
    if key in l.store.recs && key in kept
    then h.(lost := h.lost + NetPnl(l.store.recs[key]) - NetPnl(Trim(l.store.recs[key], maxFills)))
    else h
  }

  function OrderTrace(
    l: Ledger, x: Execution, ok: DbOk, kept: seq<string>, maxFills: nat, key: string, h: Trace): Trace {
    if Skipped(l, x) || BranchOf(x) == NoFill then h
    else SaveTrace(OrderStep(l, x, ok), kept, maxFills, key, BranchTrace(l, x, key, h))
  }

  function PaymentTrace(
    l: Ledger, x: Execution, ok: DbOk, kept: seq<string>, maxFills: nat, key: string, h: Trace): Trace {
    if !x.funding || FundingTarget(l.store, x).None? then h
    else
      var paid := if Pays(l, x, key) then h.(lost := h.lost + Overwritten(l.store.recs[key], "Funding_" + x.time))
        else h;
      SaveTrace(PaymentStep(l, x, ok), kept, maxFills, key, paid)
  }

  function StepTrace(
    l: Ledger, x: Execution, ok: DbOk, kept: seq<string>, maxFills: nat, key: string, h: Trace): Trace {
    if Skipped(l, x) then h
    else PaymentTrace(Ordered(l, x, ok, kept, maxFills), x, ok, kept, maxFills, key,
         OrderTrace(l, x, ok, kept, maxFills, key, h))
  }

  /** While open a record has a size, and a closed one has none exactly if no stop-loss closed it. */
  predicate StopStory(r: Rec, stopped: bool) {
    && (!r.closed ==> r.currentSize > 0 && !stopped)
    && (r.closed ==> (r.currentSize == 0 <==> !stopped))
  }

  /** The record's entries are the reference's, and its net is short of the reference's by what was lost. */
  predicate Traced(r: Rec, gen: Tally, h: Trace) {
    && r.entrySize == gen.qty && AveragePrice(r.entryPrice, r.entrySize, gen.value)
    && NetPnl(r) + h.lost == Net(gen)
    && StopStory(r, h.stopped)
  }

  predicate TracedAt(l: Ledger, t: Totals, key: string, h: Trace) {
    key in l.store.recs ==> key in t.gen && Traced(l.store.recs[key], t.gen[key], h)
  }

  lemma EntryTraced(r: Rec, gen: Tally, x: Execution, h: Trace)
    requires Traced(r, gen, h) && !r.closed && x.qty > 0
    ensures Traced(AddEntry(r, x), Plus(gen, EntryTally(x)), h)
  {
    WeightedAverage(r.entryPrice, r.entrySize, gen.value, x.price, x.qty);
  }

  lemma NewTraced(x: Execution)
    requires x.qty > 0
    ensures Traced(NewRec(x), EntryTally(x), NO_TRACE)
  {
  }

  lemma FillTraced(r: Rec, gen: Tally, x: Execution, h: Trace)
    requires Traced(r, gen, h) && !r.closed && IsFill(x)
    ensures Traced(FillRec(r, x), Plus(gen, FillTally(x)),
                   Trace(h.lost + Overwritten(r, FillLabel(r, x)), h.stopped || BranchOf(x) == SlFill))
  {
    hide Put, Held, Recalc, CloseLabel, Notional, IsOpen, IsClose;
    PutSums(r.fills, FillLabel(r, x), FillOf(x));
  }

  lemma PaymentTraced(r: Rec, gen: Tally, x: Execution, h: Trace)
    requires Traced(r, gen, h) && !r.closed
    ensures Traced(FundingRec(r, x), Plus(gen, FundingTally(x)),
      h.(lost := h.lost + Overwritten(r, "Funding_" + x.time)))
  {
    hide Put, Held, Notional;
    PutSums(r.fills, "Funding_" + x.time, Fill(-x.fee, 0.0, None, 0, x.time));
  }

  lemma BranchTraces(l: Ledger, t: Totals, x: Execution, ok: DbOk, key: string, h: Trace)
    requires TracedAt(l, t, key, h)
    ensures TracedAt(OrderStep(l, x, ok), OrderTotals(l, t, x), key, BranchTrace(l, x, key, h))
  {
    hide OrderStep, OrderTotals, Traced, NewRec, AddEntry, FillRec, Plus, EntryTally, FillTally, Target, EntryKey,
         Overwritten;
    OrderAt(l, t, x, ok, key);
    if Starts(l, x, key) {
      OpenHasQty(x);
      NewTraced(x);
    } else if Extends(l, x, key) {
      EntryTraced(l.store.recs[key], t.gen[key], x, h);
    } else if Fills(l, x, key) {
      FillTraced(l.store.recs[key], t.gen[key], x, h);
    }
  }

  lemma SaveTraces(l: Ledger, t: Totals, kept: seq<string>, maxFills: nat, key: string, h: Trace)
    requires TracedAt(l, t, key, h)
    ensures TracedAt(Save(l, kept, maxFills), t, key, SaveTrace(l, kept, maxFills, key, h))
  {
    hide NewestFirst, Net, PnlSum, CloseFeeSum;
  }

  lemma OrderTraces(
    l: Ledger, t: Totals, x: Execution, ok: DbOk, kept: seq<string>, maxFills: nat, key: string, h: Trace)
    requires TracedAt(l, t, key, h)
    ensures TracedAt(Ordered(l, x, ok, kept, maxFills), OrderTotals(l, t, x), key,
      OrderTrace(l, x, ok, kept, maxFills, key, h))
  {
    hide TracedAt, OrderStep, Newest, Save, Enter, EntryKey, BranchTrace, SaveTrace;
    BranchTraces(l, t, x, ok, key, h);
    SaveTraces(OrderStep(l, x, ok), OrderTotals(l, t, x), kept, maxFills, key, BranchTrace(l, x, key, h));
  }

  lemma PaymentTraces(
    l: Ledger, t: Totals, x: Execution, ok: DbOk, kept: seq<string>, maxFills: nat, key: string, h: Trace)
    requires TracedAt(l, t, key, h)
    ensures TracedAt(Paid(l, x, ok, kept, maxFills), PaymentTotals(l, t, x), key,
      PaymentTrace(l, x, ok, kept, maxFills, key, h))
  {
    hide PaymentStep, PaymentTotals, Traced, FundingRec, Plus, FundingTally, Newest, Save, SaveTrace, Overwritten;
    var paid := if Pays(l, x, key) then h.(lost := h.lost + Overwritten(l.store.recs[key], "Funding_" + x.time)) else h;
    PaymentAt(l, t, x, ok, key);
    if Pays(l, x, key) {
      PaymentTraced(l.store.recs[key], t.gen[key], x, h);
    }
    assert TracedAt(PaymentStep(l, x, ok), PaymentTotals(l, t, x), key, paid);
    SaveTraces(PaymentStep(l, x, ok), PaymentTotals(l, t, x), kept, maxFills, key, paid);
    if !x.funding || FundingTarget(l.store, x).None? {
      NoPayment(l, t, x);
    }
  }

  lemma NoPayment(l: Ledger, t: Totals, x: Execution)
    requires !x.funding || FundingTarget(l.store, x).None?
    ensures PaymentTotals(l, t, x) == t
  {
  }

  lemma StepTraces(
    l: Ledger, t: Totals, x: Execution, ok: DbOk, kept: seq<string>, maxFills: nat, key: string, h: Trace)
    requires TracedAt(l, t, key, h)
    ensures TracedAt(Step(l, x, ok, kept, maxFills), StepTotals(l, t, x, ok, kept, maxFills), key,
                     StepTrace(l, x, ok, kept, maxFills, key, h))
  {
    hide TracedAt, Ordered, Paid, OrderTotals, PaymentTotals, OrderTrace, PaymentTrace;
    if !Skipped(l, x) {
      OrderTraces(l, t, x, ok, kept, maxFills, key, h);
      PaymentTraces(Ordered(l, x, ok, kept, maxFills), OrderTotals(l, t, x), x, ok, kept, maxFills, key,
                    OrderTrace(l, x, ok, kept, maxFills, key, h));
    }
  }

  // ----- Whole runs -----

  datatype Event = Event(x: Execution, ok: DbOk, kept: seq<string>)

  const NO_POSITIONS := Ledger(Store([], map[], "", ""), map[])
  const NO_TOTALS := Totals(map[], map[])

  function Run(l: Ledger, events: seq<Event>, maxFills: nat): Ledger
    decreases |events|
  {
    if events == [] then l
    else Run(Step(l, events[0].x, events[0].ok, events[0].kept, maxFills), events[1..], maxFills)
  }

  function RunTotals(l: Ledger, t: Totals, events: seq<Event>, maxFills: nat): Totals
    decreases |events|
  {
    if events == [] then t
    else
      var e := events[0];
      RunTotals(Step(l, e.x, e.ok, e.kept, maxFills), StepTotals(l, t, e.x, e.ok, e.kept, maxFills), events[1..],
          maxFills)
  }

  function RunTrace(l: Ledger, events: seq<Event>, maxFills: nat, key: string, h: Trace): Trace
    decreases |events|
  {
    if events == [] then h
    else
      var e := events[0];
      RunTrace(Step(l, e.x, e.ok, e.kept, maxFills), events[1..], maxFills, key,
               StepTrace(l, e.x, e.ok, e.kept, maxFills, key, h))
  }

  /** Every database call of the run succeeds. */
  predicate OkRun(events: seq<Event>) {
    events != [] ==> AllOk(events[0].ok) && OkRun(events[1..])
  }

  ghost predicate ProperRun(l: Ledger, events: seq<Event>, maxFills: nat)
    decreases |events|
  {
    events != [] ==>
      var e := events[0];
      Proper(l, e.x, e.kept, maxFills, e.ok) && ProperRun(Step(l, e.x, e.ok, e.kept, maxFills), events[1..], maxFills)
  }

  lemma {:induction false} RunKeepsStories(l: Ledger, t: Totals, events: seq<Event>, maxFills: nat)
    requires Stories(l, t, maxFills) && ProperRun(l, events, maxFills)
    ensures Stories(Run(l, events, maxFills), RunTotals(l, t, events, maxFills), maxFills)
    decreases |events|
  {
    hide Stories, Step, StepTotals, Proper;
    if events != [] {
      var e := events[0];
      StepKeepsStories(l, t, e.x, e.ok, e.kept, maxFills);
      RunKeepsStories(Step(l, e.x, e.ok, e.kept, maxFills), StepTotals(l, t, e.x, e.ok, e.kept, maxFills),
                      events[1..], maxFills);
    }
  }

  lemma {:induction false} RowsRun(l: Ledger, t: Totals, events: seq<Event>, maxFills: nat)
    requires RowsStory(l, t) && OkRun(events)
    ensures RowsStory(Run(l, events, maxFills), RunTotals(l, t, events, maxFills))
    decreases |events|
  {
    hide RowsStory, Step, StepTotals, AllOk;
    if events != [] {
      var e := events[0];
      RowsStep(l, t, e.x, e.ok, e.kept, maxFills);
      RowsRun(Step(l, e.x, e.ok, e.kept, maxFills), StepTotals(l, t, e.x, e.ok, e.kept, maxFills), events[1..],
          maxFills);
    }
  }

  lemma {:induction false} RunTraces(l: Ledger, t: Totals, events: seq<Event>, maxFills: nat, key: string, h: Trace)
    requires TracedAt(l, t, key, h)
    ensures TracedAt(Run(l, events, maxFills), RunTotals(l, t, events, maxFills), key,
      RunTrace(l, events, maxFills, key, h))
    decreases |events|
  {
    hide TracedAt, Step, StepTotals, StepTrace;
    if events != [] {
      var e := events[0];
      StepTraces(l, t, e.x, e.ok, e.kept, maxFills, key, h);
      RunTraces(Step(l, e.x, e.ok, e.kept, maxFills), StepTotals(l, t, e.x, e.ok, e.kept, maxFills), events[1..],
                maxFills, key, StepTrace(l, e.x, e.ok, e.kept, maxFills, key, h));
    }
  }

  lemma NothingYet(maxFills: nat, key: string)
    ensures Stories(NO_POSITIONS, NO_TOTALS, maxFills) && RowsStory(NO_POSITIONS, NO_TOTALS)
    ensures TracedAt(NO_POSITIONS, NO_TOTALS, key, NO_TRACE)
  {
  }

  // ----- The store lists its keys -----

  lemma ListedStep(l: Ledger, x: Execution, ok: DbOk, kept: seq<string>, maxFills: nat)
    requires Listed(l.store)
    ensures Listed(Step(l, x, ok, kept, maxFills).store)
  {
    hide Listed, FillStep, OpenStep, FundingStep, Target, FundingTarget, Saved;
    var ordered := OrderStep(l, x, ok);
    if !Skipped(l, x) && BranchOf(x) != NoFill {
      ListedOrder(l, x, ok);
    }
    ListedSaved(ordered.store, kept, maxFills);
    var mid := Ordered(l, x, ok, kept, maxFills);
    if Listed(mid.store) {
      ListedPayment(mid, x, ok);
      ListedSaved(PaymentStep(mid, x, ok).store, kept, maxFills);
    }
  }

  lemma ListedOrder(l: Ledger, x: Execution, ok: DbOk)
    requires Listed(l.store)
    ensures Listed(OrderStep(l, x, ok).store)
  {
    hide Target, NewRec, AddEntry, TpRec, CloseRec, SlRec, Booked, UpsertRow, EntryKey, IsOpen, IsClose;
  }

  lemma ListedPayment(l: Ledger, x: Execution, ok: DbOk)
    requires Listed(l.store)
    ensures Listed(PaymentStep(l, x, ok).store)
  {
    hide FundingTarget, FundingRec, Booked;
  }

  lemma ListedSaved(s: Store, kept: seq<string>, maxFills: nat)
    ensures Listed(s) ==> Listed(Saved(s, kept, maxFills))
  {
    hide Trim;
  }

  lemma {:induction false} RunIsListed(l: Ledger, events: seq<Event>, maxFills: nat)
    requires Listed(l.store)
    ensures Listed(Run(l, events, maxFills).store)
    decreases |events|
  {
    hide Listed, Step;
    if events != [] {
      ListedStep(l, events[0].x, events[0].ok, events[0].kept, maxFills);
      RunIsListed(Step(l, events[0].x, events[0].ok, events[0].kept, maxFills), events[1..], maxFills);
    }
  }

  /** In every reachable state a record is found exactly when one is open, without the remembered order ids. */
  lemma OpenRecordsAreFound(events: seq<Event>, maxFills: nat, symbol: string, side: PosSide, usedKey: Option<string>)
    ensures var s := Run(NO_POSITIONS, events, maxFills).store;
      && (Resolve(s, symbol, side, usedKey).Some? <==> exists k :: OpenFor(s, k, symbol, side))
      && Resolve(s, symbol, side, usedKey) ==
           if usedKey.Some? && OpenFor(s, usedKey.value, symbol, side) then usedKey
           else Newest(s, s.order, symbol, side)
  {
    hide Run, Resolve, Newest, OpenFor;
    RunIsListed(NO_POSITIONS, events, maxFills);
    ResolveIsComplete(Run(NO_POSITIONS, events, maxFills).store, symbol, side, usedKey);
  }

  /**
    Which record that is: the order key's own while it is open; otherwise the one entered last, and of
    several entered at the same time the one listed first.
   */
  lemma LatestRecordIsFound(
    events: seq<Event>, maxFills: nat, symbol: string, side: PosSide, usedKey: Option<string>, key: string)
    ensures var s := Run(NO_POSITIONS, events, maxFills).store;
      Resolve(s, symbol, side, usedKey) == Some(key) <==>
        if usedKey.Some? && OpenFor(s, usedKey.value, symbol, side) then usedKey == Some(key)
        else exists i: nat :: LatestOpen(s, s.order, i, symbol, side) && s.order[i] == key
  {
    hide Run, Resolve, OpenFor, LatestOpen, Newest;
    var s := Run(NO_POSITIONS, events, maxFills).store;
    OpenRecordsAreFound(events, maxFills, symbol, side, usedKey);
    LatestIsNewest(s, symbol, side, key);
  }

  lemma LatestIsNewest(s: Store, symbol: string, side: PosSide, key: string)
    ensures Newest(s, s.order, symbol, side) == Some(key) <==>
      exists i: nat :: LatestOpen(s, s.order, i, symbol, side) && s.order[i] == key
  {
    hide OpenFor, Newest;
    if Newest(s, s.order, symbol, side).Some? {
      var n := NewestIsLatest(s, s.order, symbol, side);
      forall i: nat | LatestOpen(s, s.order, i, symbol, side)
        ensures i == n
      {
        OneLatest(s, i, n, symbol, side);
      }
    } else {
      assert forall i: nat :: i < |s.order| ==> s.order[i] in s.order;
    }
  }

  /** So a closing execution concerns the latest open record of the side it reduces, unless it names one. */
  lemma ClosesTheLatest(events: seq<Event>, maxFills: nat, x: Execution, key: string)
    ensures var s := Run(NO_POSITIONS, events, maxFills).store;
      var side := if x.side == Buy then Short else Long;
      Target(s, x) == Some(key) <==>
        if OpenFor(s, x.usedKey, x.symbol, side) then x.usedKey == key
        else exists i: nat :: LatestOpen(s, s.order, i, x.symbol, side) && s.order[i] == key
  {
    hide Run, Resolve, OpenFor, LatestOpen;
    LatestRecordIsFound(events, maxFills, x.symbol, ReducedSide(x), Some(x.usedKey), key);
  }

  // ----- Nets -----

  /** What earlier records of the key netted: booked in its row, but not in its record. */
  function Leftover(t: Totals, key: string): real {
    Net(At(t.all, key)) - Net(At(t.gen, key))
  }

  /** What a new record leaves behind: the net that the row of the key stands at. */
  function LeftBehind(l: Ledger, key: string): real {
    if key in l.rows then l.rows[key].pnlNet else 0.0
  }

  lemma NetOfSum(a: Tally, b: Tally)
    ensures Net(Plus(a, b)) == Net(a) + Net(b)
  {
  }

  lemma EnterLeaves(t: Totals, key: string, created: bool, d: Tally, k: string)
    ensures Leftover(Enter(t, key, created, d), k) == if created && k == key then Net(At(t.all, k)) else Leftover(t, k)
  {
    hide Net, Plus;
    NetOfSum(At(t.gen, key), d);
    NetOfSum(At(t.all, key), d);
  }

  lemma StartLeaves(l: Ledger, t: Totals, key: string)
    requires RowsStory(l, t) && CreatesRecord(l.store, key)
    ensures Net(At(t.all, key)) == LeftBehind(l, key)
  {
  }

  /** The leftover of a key stays as it is, until an entry starts a new record under it. */
  lemma LeftoverUntilReused(l: Ledger, t: Totals, x: Execution, ok: DbOk, kept: seq<string>, maxFills: nat, key: string)
    requires RowsStory(l, t)
    ensures Leftover(StepTotals(l, t, x, ok, kept, maxFills), key) ==
      if Starts(l, x, key) then LeftBehind(l, key) else Leftover(t, key)
  {
    hide RowsStory, Ordered, Paid, FundingTarget, Target, EntryTally, FillTally, FundingTally, CreatesRecord, EntryKey,
         Enter, Leftover, LeftBehind, IsOpen, IsClose;
    if BranchOf(x) == Open {
      OpenIsNotFunding(x);
    }
    if !Skipped(l, x) {
      var mid, t' := Ordered(l, x, ok, kept, maxFills), OrderTotals(l, t, x);
      if BranchOf(x) == Open {
        EnterLeaves(t, EntryKey(x), CreatesRecord(l.store, EntryKey(x)), EntryTally(x), key);
        if Starts(l, x, key) {
          StartLeaves(l, t, key);
        }
      } else if BranchOf(x) != NoFill {
        EnterLeaves(t, Target(l.store, x).value, false, FillTally(x), key);
      }
      if x.funding && FundingTarget(mid.store, x).Some? {
        EnterLeaves(t', FundingTarget(mid.store, x).value, false, FundingTally(x), key);
      }
    }
  }

  lemma OpenIsNotFunding(x: Execution)
    requires BranchOf(x) == Open
    ensures !x.funding && x.usedKey != ""
  {
  }

  /** The net that the row of the key stood at when the key's current record was started. */
  function CarriedOver(l: Ledger, events: seq<Event>, maxFills: nat, key: string, carried: real): real
    decreases |events|
  {
    if events == [] then carried
    else
      var e := events[0];
      CarriedOver(Step(l, e.x, e.ok, e.kept, maxFills), events[1..], maxFills, key,
                  if Starts(l, e.x, key) then LeftBehind(l, key) else carried)
  }

  lemma {:induction false} LeftoverIsCarriedOver(l: Ledger, t: Totals, events: seq<Event>, maxFills: nat, key: string)
    requires RowsStory(l, t) && OkRun(events)
    ensures Leftover(RunTotals(l, t, events, maxFills), key) == CarriedOver(l, events, maxFills, key, Leftover(t, key))
    decreases |events|
  {
    hide RowsStory, Step, StepTotals, AllOk, Leftover, LeftBehind, Starts;
    if events != [] {
      var e := events[0];
      RowsStep(l, t, e.x, e.ok, e.kept, maxFills);
      LeftoverUntilReused(l, t, e.x, e.ok, e.kept, maxFills, key);
      LeftoverIsCarriedOver(Step(l, e.x, e.ok, e.kept, maxFills), StepTotals(l, t, e.x, e.ok, e.kept, maxFills),
                            events[1..], maxFills, key);
    }
  }

  /** No entry starts a new record under a key that already has a row. */
  ghost predicate NeverReused(l: Ledger, events: seq<Event>, maxFills: nat, key: string)
    decreases |events|
  {
    events != [] ==>
      var e := events[0];
      && !(Starts(l, e.x, key) && key in l.rows)
      && NeverReused(Step(l, e.x, e.ok, e.kept, maxFills), events[1..], maxFills, key)
  }

  lemma {:induction false} NothingCarriedOver(l: Ledger, events: seq<Event>, maxFills: nat, key: string)
    requires NeverReused(l, events, maxFills, key)
    ensures CarriedOver(l, events, maxFills, key, 0.0) == 0.0
    decreases |events|
  {
    hide Step, Starts;
    if events != [] {
      var e := events[0];
      NothingCarriedOver(Step(l, e.x, e.ok, e.kept, maxFills), events[1..], maxFills, key);
    }
  }

  lemma NothingLeftYet(key: string)
    ensures Leftover(NO_TOTALS, key) == 0.0
  {
    hide Net;
    assert At(NO_TOTALS.gen, key) == ZERO && At(NO_TOTALS.all, key) == ZERO;
  }

  lemma ClosedAgrees(l: Ledger, t: Totals, key: string, h: Trace)
    requires RowsStory(l, t) && TracedAt(l, t, key, h) && key in l.store.recs && l.store.recs[key].closed
    ensures key in l.rows && l.rows[key].closed
    ensures l.rows[key].pnlNet == NetPnl(l.store.recs[key]) + Leftover(t, key) + h.lost
  {
    hide RowStory, NetPnl, StopStory;
  }

  /**
    Over every run whose database calls succeed, the net that the row of a closed record was finalized
    with is the record's own, plus the net that the row stood at when the record was started, plus that of
    the fills which the record lost to a shared label or to trimming. So the two agree exactly when these
    cancel out; nothing is carried over under a key that was never reused.
   */
  lemma ClosedRecordsAgreeWithRows(events: seq<Event>, maxFills: nat, key: string)
    requires OkRun(events)
    ensures var l := Run(NO_POSITIONS, events, maxFills);
      var carried, lost := CarriedOver(NO_POSITIONS, events, maxFills, key, 0.0),
                           RunTrace(NO_POSITIONS, events, maxFills, key, NO_TRACE).lost;
      key in l.store.recs && l.store.recs[key].closed ==>
        && key in l.rows && l.rows[key].closed
        && l.rows[key].pnlNet == NetPnl(l.store.recs[key]) + carried + lost
        && (l.rows[key].pnlNet == NetPnl(l.store.recs[key]) <==> carried + lost == 0.0)
        && (NeverReused(NO_POSITIONS, events, maxFills, key) ==> carried == 0.0)
  {
    hide Run, RunTotals, RunTrace, NeverReused, OkRun, RowsStory, TracedAt, Stories, NetPnl, CarriedOver, Leftover;
    NothingYet(maxFills, key);
    NothingLeftYet(key);
    RowsRun(NO_POSITIONS, NO_TOTALS, events, maxFills);
    RunTraces(NO_POSITIONS, NO_TOTALS, events, maxFills, key, NO_TRACE);
    LeftoverIsCarriedOver(NO_POSITIONS, NO_TOTALS, events, maxFills, key);
    var l, t := Run(NO_POSITIONS, events, maxFills), RunTotals(NO_POSITIONS, NO_TOTALS, events, maxFills);
    if key in l.store.recs && l.store.recs[key].closed {
      ClosedAgrees(l, t, key, RunTrace(NO_POSITIONS, events, maxFills, key, NO_TRACE));
    }
    if NeverReused(NO_POSITIONS, events, maxFills, key) {
      NothingCarriedOver(NO_POSITIONS, events, maxFills, key);
    }
  }

  /** With new labels, room for every fill and execValue equal to price times quantity, nothing is lost. */
  lemma ProperRunLosesNothing(events: seq<Event>, maxFills: nat, key: string)
    requires ProperRun(NO_POSITIONS, events, maxFills)
    ensures key in Run(NO_POSITIONS, events, maxFills).store.recs ==>
      RunTrace(NO_POSITIONS, events, maxFills, key, NO_TRACE).lost == 0.0
  {
    hide Run, RunTotals, RunTrace, ProperRun, Stories, TracedAt;
    NothingYet(maxFills, key);
    RunKeepsStories(NO_POSITIONS, NO_TOTALS, events, maxFills);
    RunTraces(NO_POSITIONS, NO_TOTALS, events, maxFills, key, NO_TRACE);
    var l, t := Run(NO_POSITIONS, events, maxFills), RunTotals(NO_POSITIONS, NO_TOTALS, events, maxFills);
    if key in l.store.recs {
      KeptLosesNothing(l, t, maxFills, key, RunTrace(NO_POSITIONS, events, maxFills, key, NO_TRACE));
    }
  }

  lemma KeptLosesNothing(l: Ledger, t: Totals, maxFills: nat, key: string, h: Trace)
    requires Stories(l, t, maxFills) && TracedAt(l, t, key, h) && key in l.store.recs
    ensures h.lost == 0.0
  {
    hide RowsStory, SizeStory, StopStory, AveragePrice;
    assert RecKept(l, t, key, maxFills);
  }

  // ----- Two ways for the nets to part -----

  const POSITION := "manual|B|Long"
  const ALL_OK := DbOk(true, true, true)

  function OnePosition(r: Rec, row: Row): Ledger {
    Ledger(Store([POSITION], map[POSITION := r], POSITION, POSITION), map[POSITION := row])
  }

  function BuyOf(qty: nat): Execution {
    Execution("a", false, false, "B", Buy, NoStop, false, 0.0, 0.0, qty, 1.0, qty as real, 0.0, 0, "1")
  }

  function SellOf(stop: StopType, pnl: real, closedSize: nat, time: string): Execution {
    Execution("b", false, false, "B", Sell, stop, false, pnl, 0.0, 1, 6.0, 6.0, 0.0, closedSize, time)
  }

  lemma SavingNothing(l: Ledger, maxFills: nat)
    ensures Save(l, [], maxFills) == l
  {
  }

  lemma FirstEntry(qty: nat)
    requires qty > 0
    ensures QuietStep(NO_POSITIONS, BuyOf(qty)) ==
            OnePosition(NewRec(BuyOf(qty)), Row(1.0, qty, 1.0 * qty as real, 0.0, false, 0.0, 0.0, 0.0, []))
  {
    hide Save, Target, FundingTarget;
    assert ManualKey("B", Long) == POSITION;
    SavingNothing(OpenStep(NO_POSITIONS, BuyOf(qty), ALL_OK), 10);
  }

  lemma EntryAfterClose(r: Rec, row: Row)
    requires r.closed && row.entryQty == 1 && row.entryValue == 1.0
    ensures QuietStep(OnePosition(r, row), BuyOf(1)) ==
            OnePosition(NewRec(BuyOf(1)), row.(entryQty := 2, entryValue := 2.0, entryPrice := 1.0))
  {
    hide Save, Target, FundingTarget;
    assert ManualKey("B", Long) == POSITION;
    SavingNothing(OpenStep(OnePosition(r, row), BuyOf(1), ALL_OK), 10);
  }

  /** The row after a fill: it books the fill, and is finalized when the record closed. */
  function RowAfter(row: Row, f: DbFill, closed: bool): Row {
    var booked := row.(fills := row.fills + [f]);
    if closed then Finalized(booked) else booked
  }

  lemma FillOfPosition(r: Rec, row: Row, x: Execution)
    requires IsFill(x) && x.symbol == r.symbol == "B" && r.side == Long && x.side == Sell && !r.closed
    requires x.usedKey == "b" && !x.funding
    ensures QuietStep(OnePosition(r, row), x) ==
            OnePosition(FillRec(r, x),
                        RowAfter(row, DbFill(FillKindOf(r, x), x.price, x.qty, x.pnl, x.fee), FillRec(r, x).closed))
  {
    var l := OnePosition(r, row);
    assert Newest(l.store, l.store.order[..0], "B", Long) == None;
    assert Target(l.store, x) == Some(POSITION);
    FillStepIs(l, POSITION, x, ALL_OK);
    hide Save, FillRec, Finalized, FillKindOf, FillStep, Target, IsOpen, IsClose, FundingTarget;
    SavingNothing(OrderStep(l, x, ALL_OK), 10);
  }

  function QuietStep(l: Ledger, x: Execution): Ledger {
    Step(l, x, ALL_OK, [], 10)
  }

  lemma RunStep(l: Ledger, x: Execution, rest: seq<Execution>)
    ensures Run(l, Quietly([x] + rest), 10) == Run(QuietStep(l, x), Quietly(rest), 10)
    ensures Run(QuietStep(l, x), Quietly([]), 10) == QuietStep(l, x)
  {
    hide Step;
    var e := Event(x, ALL_OK, []);
    assert Quietly([x] + rest) == [e] + Quietly(rest);
    assert ([e] + Quietly(rest))[1..] == Quietly(rest);
  }

  lemma RunOfFour(l: Ledger, a: Execution, b: Execution, c: Execution, d: Execution)
    ensures Run(l, Quietly([a, b, c]), 10) == QuietStep(QuietStep(QuietStep(l, a), b), c)
    ensures Run(l, Quietly([a, b, c, d]), 10) == QuietStep(QuietStep(QuietStep(QuietStep(l, a), b), c), d)
  {
    hide *;
    var l1 := QuietStep(l, a);
    var l2 := QuietStep(l1, b);
    var l3 := QuietStep(l2, c);
    RunStep(l, a, [b, c]);
    RunStep(l1, b, [c]);
    RunStep(l2, c, []);
    assert [a, b, c] == [a] + [b, c] && [b, c] == [b] + [c] && [c] == [c] + [];
    RunStep(l, a, [b, c, d]);
    RunStep(l1, b, [c, d]);
    RunStep(l2, c, [d]);
    RunStep(l3, d, []);
    assert [d] == [d] + [] && [c, d] == [c] + [d];
    assert [b, c, d] == [b] + [c, d];
    assert [a, b, c, d] == [a] + [b, c, d];
  }

  /** The executions with working database calls, and nothing trimmed. */
  function Quietly(xs: seq<Execution>): seq<Event> {
    seq(|xs|, i requires 0 <= i < |xs| => Event(xs[i], ALL_OK, []))
  }

  /** The record and the row of one lot closed at a profit of 5. */
  lemma RoundTripOf(row: Row)
    requires row.feeOpen == 0.0 && DbFee(row.fills) == 0.0
    ensures var r, y := NewRec(BuyOf(1)), SellOf(NoStop, 5.0, 1, "2");
      var exit := DbFill(EXIT, 6.0, 1, 5.0, 0.0);
      && IsFill(y) && FillKindOf(r, y) == EXIT && y.price == 6.0 && y.qty == 1 && y.pnl == 5.0 && y.fee == 0.0
      && FillRec(r, y).closed && NetPnl(FillRec(r, y)) == 5.0
      && RowAfter(row, exit, true).pnlNet == DbPnl(row.fills) + 5.0
      && DbFee(row.fills + [exit]) == 0.0 && DbPnl(row.fills + [exit]) == DbPnl(row.fills) + 5.0
  {
    var r, y := NewRec(BuyOf(1)), SellOf(NoStop, 5.0, 1, "2");
    AppendFill(row.fills, DbFill(EXIT, 6.0, 1, 5.0, 0.0));
    assert FillRec(r, y).fills == [Entry("Manual_Exit", FillOf(y))];
  }

  /** Two manual round trips on one side, each with a profit of 5: the second alert reports 5, the row 10. */
  lemma ReuseDiverges()
    ensures var x, y := BuyOf(1), SellOf(NoStop, 5.0, 1, "2");
      var after := Run(NO_POSITIONS, Quietly([x, y, x, y]), 10);
      && POSITION in after.store.recs && NetPnl(after.store.recs[POSITION]) == 5.0
      && POSITION in after.rows && after.rows[POSITION].pnlNet == 10.0
  {
    var x, y := BuyOf(1), SellOf(NoStop, 5.0, 1, "2");
    var row, exit := Row(1.0, 1, 1.0, 0.0, false, 0.0, 0.0, 0.0, []), DbFill(EXIT, 6.0, 1, 5.0, 0.0);
    var once := RowAfter(row, exit, true);
    var again := once.(entryQty := 2, entryValue := 2.0, entryPrice := 1.0);
    var r := FillRec(NewRec(x), y);
    assert again.fills == row.fills + [exit];
    RoundTripOf(row);
    RoundTripOf(again);
    OpenedLong(1);
    hide *;
    FirstEntry(1);
    FillOfPosition(NewRec(x), row, y);
    EntryAfterClose(r, once);
    FillOfPosition(NewRec(x), again, y);
    RunOfFour(NO_POSITIONS, x, y, x, y);
    OnePositionIs(r, RowAfter(again, exit, true));
  }

  lemma OpenedLong(qty: nat)
    ensures NewRec(BuyOf(qty)).symbol == "B" && NewRec(BuyOf(qty)).side == Long && !NewRec(BuyOf(qty)).closed
    ensures forall stop, pnl, n, time :: var y := SellOf(stop, pnl, n, time);
      y.symbol == "B" && y.side == Sell && y.usedKey == "b" && !y.funding
  {
  }

  lemma OnePositionIs(r: Rec, row: Row)
    ensures POSITION in OnePosition(r, row).store.recs && OnePosition(r, row).store.recs[POSITION] == r
    ensures POSITION in OnePosition(r, row).rows && OnePosition(r, row).rows[POSITION] == row
  {
  }

  /**
    A take-profit order filled twice in one second, then a stop-loss: the key is never reused, yet the
    record nets 4 and the row 9, and before the stop-loss the record's size is 2 with one lot left.
   */
  lemma SameSecondDiverges()
    ensures var x, tp, sl := BuyOf(3), SellOf(TakeProfit, 5.0, 1, "2"), SellOf(StopLoss, -1.0, 1, "3");
      var before, after := Run(NO_POSITIONS, Quietly([x, tp, tp]), 10), Run(NO_POSITIONS, Quietly([x, tp, tp, sl]), 10);
      && POSITION in before.store.recs && before.store.recs[POSITION].currentSize == 2
      && POSITION in after.store.recs && after.store.recs[POSITION].closed && NetPnl(after.store.recs[POSITION]) == 4.0
      && POSITION in after.rows && after.rows[POSITION].pnlNet == 9.0
  {
    var x, tp, sl := BuyOf(3), SellOf(TakeProfit, 5.0, 1, "2"), SellOf(StopLoss, -1.0, 1, "3");
    var row := Row(1.0, 3, 3.0, 0.0, false, 0.0, 0.0, 0.0, []);
    var f, g := DbFill(TP, 6.0, 1, 5.0, 0.0), DbFill(SL, 6.0, 1, -1.0, 0.0);
    var row1 := RowAfter(row, f, false);
    var row2 := RowAfter(row1, f, false);
    var row3 := RowAfter(row2, g, true);
    var r := NewRec(x);
    var r1 := FillRec(r, tp);
    var r3 := FillRec(r1, sl);
    SameSecondRecords();
    SameSecondRow(row, f, g);
    OpenedLong(3);
    hide *;
    FirstEntry(3);
    FillOfPosition(r, row, tp);
    FillOfPosition(r1, row1, tp);
    FillOfPosition(r1, row2, sl);
    RunOfFour(NO_POSITIONS, x, tp, tp, sl);
    OnePositionIs(r1, row2);
    OnePositionIs(r3, row3);
  }

  lemma SameSecondRow(row: Row, f: DbFill, g: DbFill)
    requires row.fills == [] && row.feeOpen == 0.0
    requires f == DbFill(TP, 6.0, 1, 5.0, 0.0) && g == DbFill(SL, 6.0, 1, -1.0, 0.0)
    ensures RowAfter(RowAfter(RowAfter(row, f, false), f, false), g, true).pnlNet == 9.0
  {
    AppendFill([], f);
    AppendFill([] + [f], f);
    AppendFill([] + [f] + [f], g);
  }

  lemma SameSecondRecords()
    ensures var r, tp, sl := NewRec(BuyOf(3)), SellOf(TakeProfit, 5.0, 1, "2"), SellOf(StopLoss, -1.0, 1, "3");
      var r1 := FillRec(r, tp);
      var r3 := FillRec(r1, sl);
      && IsFill(tp) && IsFill(sl) && FillKindOf(r, tp) == FillKindOf(r1, tp) == TP && FillKindOf(r1, sl) == SL
      && (tp.price, tp.qty, tp.pnl, tp.fee) == (6.0, 1, 5.0, 0.0)
      && (sl.price, sl.qty, sl.pnl, sl.fee) == (6.0, 1, -1.0, 0.0)
      && FillRec(r1, tp) == r1 && r1.currentSize == 2 && !r1.closed && r1.symbol == "B" && r1.side == Long
      && r3.closed && NetPnl(r3) == 4.0
  {
    var r, tp, sl := NewRec(BuyOf(3)), SellOf(TakeProfit, 5.0, 1, "2"), SellOf(StopLoss, -1.0, 1, "3");
    var a, b := Entry("TP_" + "2", FillOf(tp)), Entry("SL", FillOf(sl));
    assert BranchOf(tp) == TpFill && BranchOf(sl) == SlFill;
    assert Put([], "TP_" + "2", FillOf(tp)) == [a] && Put([a], "TP_" + "2", FillOf(tp)) == [a];
    assert ClosedQty([a]) == 1;
    assert a.name[0] != "SL"[0];
    assert [a][1..] == [] && [a] + Put([], "SL", FillOf(sl)) == [a, b];
    assert Put([a], "SL", FillOf(sl)) == [a, b];
    assert [a, b][1..] == [b] && PnlSum([b]) == -1.0 && CloseFeeSum([b]) == 0.0;
    hide Put, ClosedQty, PnlSum, CloseFeeSum, BranchOf;
    assert TpRec(r, tp).fills == [a] && TpRec(r, tp).currentSize == 2;
  }

  // ----- Entries and sizes -----

  /**
    In every reachable state a record holds the quantity entered since it was started and the average
    price of that; over every run whose database calls succeed, its row does so since the row was made.
   */
  lemma EntriesAgree(events: seq<Event>, maxFills: nat, key: string)
    ensures var l, t := Run(NO_POSITIONS, events, maxFills), RunTotals(NO_POSITIONS, NO_TOTALS, events, maxFills);
      key in l.store.recs ==>
        var r := l.store.recs[key];
        && key in t.gen && r.entrySize == t.gen[key].qty && Notional(r.entryPrice, r.entrySize) == t.gen[key].value
        && (OkRun(events) ==>
              && key in l.rows && key in t.all && l.rows[key].entryQty == t.all[key].qty
              && Notional(l.rows[key].entryPrice, l.rows[key].entryQty) == t.all[key].value)
  {
    hide Run, RunTotals, RunTrace, OkRun, Stories, NetPnl, Net, Notional;
    NothingYet(0, key);
    RunTraces(NO_POSITIONS, NO_TOTALS, events, maxFills, key, NO_TRACE);
    if OkRun(events) {
      RowsRun(NO_POSITIONS, NO_TOTALS, events, maxFills);
    }
  }

  /**
    In every reachable state an open record has a size, and a closed record has size zero exactly when no
    stop-loss closed it.
   */
  lemma ClosedMeansEmptyIff(events: seq<Event>, maxFills: nat, key: string)
    ensures var l, h := Run(NO_POSITIONS, events, maxFills), RunTrace(NO_POSITIONS, events, maxFills, key, NO_TRACE);
      key in l.store.recs ==>
        var r := l.store.recs[key];
        (if r.closed then r.currentSize == 0 <==> !h.stopped else r.currentSize > 0 && !h.stopped)
  {
    hide Run, RunTotals, RunTrace, Stories, NetPnl, Net, AveragePrice;
    NothingYet(0, key);
    RunTraces(NO_POSITIONS, NO_TOTALS, events, maxFills, key, NO_TRACE);
  }

  /**
    With new labels, room for every fill and execValue equal to price times quantity, the size is what was
    entered minus what was closed, where a stop-loss does not count as closed; and the fill under SL tells
    whether there was one.
   */
  lemma SizesFollowFills(events: seq<Event>, maxFills: nat, key: string)
    requires ProperRun(NO_POSITIONS, events, maxFills)
    ensures var l, t := Run(NO_POSITIONS, events, maxFills), RunTotals(NO_POSITIONS, NO_TOTALS, events, maxFills);
      key in l.store.recs ==>
        var r := l.store.recs[key];
        && key in t.gen && ClosedQty(r.fills) == t.gen[key].closed
        && (var left := t.gen[key].qty - (t.gen[key].closed - Held(r.fills, "SL").qty);
            r.currentSize == if left >= 0 then left else 0)
        && (r.closed ==> (r.currentSize == 0 <==> !HasLabel(r.fills, "SL")))
        && (HasLabel(r.fills, "SL") ==> r.closed)
        && (!HasLabel(r.fills, "SL") ==> r.currentSize == Recalc(r))
  {
    hide Run, RunTotals, ProperRun, HasLabel, RowsStory, Held;
    NothingYet(maxFills, key);
    RunKeepsStories(NO_POSITIONS, NO_TOTALS, events, maxFills);
    var l, t := Run(NO_POSITIONS, events, maxFills), RunTotals(NO_POSITIONS, NO_TOTALS, events, maxFills);
    if key in l.store.recs {
      assert RecKept(l, t, key, maxFills);
      if !HasLabel(l.store.recs[key].fills, "SL") {
        NothingHeld(l.store.recs[key].fills, "SL");
      }
    }
  }

  /** The stop-loss branch closes a record and leaves it a size. */
  lemma StopLossLeavesSize(r: Rec, gen: Tally, x: Execution)
    requires RecStory(r, gen) && !r.closed
    ensures SlRec(r, x).closed && SlRec(r, x).currentSize == r.currentSize > 0
  {
    NothingHeld(r.fills, "SL");
  }

  // ----- The handler -----

  /** The net profit that the last alert of a fill reports, when the fill closed its record. */
  function FinalAlert(l: Ledger, x: Execution, ok: DbOk, kept: seq<string>, maxFills: nat): Option<real> {
    if BranchOf(x) == Open || BranchOf(x) == NoFill || Skipped(l, x) then None
    else
      var key, recs := Target(l.store, x).value, Ordered(l, x, ok, kept, maxFills).store.recs;
      if key in recs && recs[key].closed then Some(NetPnl(recs[key])) else None
  }

  class PositionBook {
    var order: seq<string>
    var recs: map<string, Rec>
    var currentLink: string
    var lastOrder: string
    var rows: map<string, Row>

    constructor ()
      ensures View() == NO_POSITIONS
    {
      order, recs, currentLink, lastOrder, rows := [], map[], "", "", map[];
    }

    function View(): Ledger
      reads this
    {
      Ledger(Store(order, recs, currentLink, lastOrder), rows)
    }

    method SetRecord(key: string, r: Rec)
      modifies this`order, this`recs
      ensures View() == old(View()).(store := SetRec(old(View()).store, key, r))
    {
      if key !in recs {
        order := order + [key];
      }
      recs := recs[key := r];
    }

    /** An entry extends the open record of its key, or starts a new one. */
    method OpenExecution(x: Execution, ok: DbOk)
      requires x.qty > 0
      modifies this
      ensures View() == OpenStep(old(View()), x, ok)
    {
      hide ManualKey, UpsertRow, Notional;
      var key := x.usedKey;
      if !x.zoneKey {
        key := ManualKey(x.symbol, OpenedSide(x));
      }
      if key in recs && !recs[key].closed {
        var r := recs[key];
        var newQty := r.entrySize + x.qty;
        var newValue, newFee := r.execValue + Notional(x.price, x.qty), r.openFee + x.fee;
        var average := (Notional(r.entryPrice, r.entrySize) + Notional(x.price, x.qty)) / newQty as real;
        r := r.(entryPrice := average, entrySize := newQty);
        r := r.(currentSize := r.currentSize + x.qty, openFee := newFee, execValue := newValue);
        r := r.(openFeeRate := if newValue != 0.0 then newFee / newValue else x.feeRate);
        assert r == AddEntry(recs[key], x);
        SetRecord(key, r);
      } else {
        SetRecord(key, NewRec(x));
        lastOrder := key;
        currentLink := key;
      }
      if ok.upsert {
        rows := UpsertRow(rows, key, x.price, x.qty, x.fee);
      }
      assert View() == OpenStep(old(View()), x, ok);
    }

    /** A take-profit fill, by a limit order or by the watcher's market order. */
    method TakeProfitFill(key: string, x: Execution, ok: DbOk)
      requires key in recs
      modifies this
      ensures View() == TpStep(old(View()), key, x, ok)
    {
      hide Put;
      var r := recs[key];
      r := r.(fills := Put(r.fills, "TP_" + x.time, FillOf(x)));
      var stored, recalc := r.currentSize, Recalc(r);
      r := r.(currentSize := if recalc < stored then recalc else stored);
      if ok.insert {
        rows := InsertFill(rows, key, DbFill(TP, x.price, x.qty, x.pnl, x.fee));
      }
      if r.currentSize == 0 {
        r := r.(closed := true, exitTime := x.time);
        if ok.finalize {
          rows := FinalizeRow(rows, key);
        }
      }
      SetRecord(key, r);
    }

    /** A market close: reconcile with the fills, subtract, classify, record. */
    method CloseFill(key: string, x: Execution, ok: DbOk)
      requires key in recs
      modifies this
      ensures View() == CloseStep(old(View()), key, x, ok)
    {
      hide Put, Recalc, EstimatedOpenFee;
      var r := recs[key];
      var manualExit := !x.zoneKey;
      var stored, recalc := r.currentSize, Recalc(r);
      if recalc != stored {
        stored := Min(stored, recalc);
        r := r.(currentSize := stored);
      }
      var left: int := stored - x.qty;
      r := r.(currentSize := if left > 0 then left else 0);
      var fullyClosed := left <= 0;
      var name := "Manual_Reduce_" + x.time;
      if fullyClosed {
        name := if manualExit || r.strategy == Manual then "Manual_Exit" else "Zone_Strategy_Exit";
      }
      var totalFee := EstimatedOpenFee(r.entryPrice, x.qty, r.openFeeRate) + x.fee;
      r := r.(fills := Put(r.fills, name, FillOf(x)));
      var kind := EXIT;
      if manualExit && !fullyClosed && x.pnl - totalFee >= 0.0 {
        kind := TP;
      }
      assert name == CloseLabel(recs[key], x) && kind == CloseKind(recs[key], x)
        && fullyClosed == FullyCloses(recs[key], x);
      if ok.insert {
        rows := InsertFill(rows, key, DbFill(kind, x.price, x.qty, x.pnl, x.fee));
      }
      if fullyClosed {
        r := r.(closed := true, exitTime := x.time);
        if ok.finalize {
          rows := FinalizeRow(rows, key);
        }
      }
      SetRecord(key, r);
    }

    method StopLossFill(key: string, x: Execution, ok: DbOk)
      requires key in recs
      modifies this
      ensures View() == SlStep(old(View()), key, x, ok)
    {
      hide Put;
      var r := recs[key].(closed := true, exitTime := x.time);
      r := r.(fills := Put(r.fills, "SL", FillOf(x)));
      SetRecord(key, r);
      if ok.insert {
        rows := InsertFill(rows, key, DbFill(SL, x.price, x.qty, x.pnl, x.fee));
      }
      if ok.finalize {
        rows := FinalizeRow(rows, key);
      }
    }

    method FundingFill(key: string, x: Execution, ok: DbOk)
      requires key in recs
      modifies this
      ensures View() == FundingStep(old(View()), key, x, ok)
    {
      hide Put;
      var r := recs[key];
      SetRecord(key, r.(fills := Put(r.fills, "Funding_" + x.time, Fill(-x.fee, 0.0, None, 0, x.time))));
      if ok.insert {
        rows := InsertFill(rows, key, DbFill(FUNDING, r.entryPrice, 0, -x.fee, 0.0));
      }
    }

    /** Saving trims the kept records in memory as well as in the file. */
    method SaveStore(kept: seq<string>, maxFills: nat)
      modifies this`recs
      ensures View() == Save(old(View()), kept, maxFills)
    {
      hide NewestFirst;
      for i := 0 to |kept|
        invariant recs == Saved(old(View()).store, kept[..i], maxFills).recs
      {
        var key := kept[i];
        assert kept[..i + 1] == kept[..i] + [key];
        if key in recs && |recs[key].fills| > maxFills {
          recs := recs[key := Trim(recs[key], maxFills)];
        }
      }
      assert kept[..|kept|] == kept;
    }

    /** One execution of a message; the result is the net profit of the final alert, if one is sent. */
    method HandleExecution(x: Execution, ok: DbOk, kept: seq<string>, maxFills: nat) returns (alert: Option<real>)
      modifies this
      ensures View() == Step(old(View()), x, ok, kept, maxFills)
      ensures alert == FinalAlert(old(View()), x, ok, kept, maxFills)
    {
      hide OpenStep, TpStep, CloseStep, SlStep, FundingStep, Newest, Saved, ManualKey;
      alert := None;
      if x.usedKey == "" {
        return;
      }
      if IsOpen(x) {
        OpenExecution(x, ok);
        SaveStore(kept, maxFills);
      }
      var closing := IsClose(x);
      if closing || x.stop == TakeProfit || x.stop == StopLoss {
        var key := Resolve(View().store, x.symbol, ReducedSide(x), Some(x.usedKey));
        if key.None? {
          return;
        }
        if (closing && x.tpMarket) || (!closing && x.stop == TakeProfit) {
          TakeProfitFill(key.value, x, ok);
        } else if closing {
          CloseFill(key.value, x, ok);
        } else {
          StopLossFill(key.value, x, ok);
        }
        SaveStore(kept, maxFills);
        if key.value in recs && recs[key.value].closed {
          alert := Some(NetPnl(recs[key.value]));
        }
      }
      if x.funding {
        var key := Resolve(View().store, x.symbol, OpenedSide(x), None);
        if key.Some? {
          FundingFill(key.value, x, ok);
          SaveStore(kept, maxFills);
        }
      }
    }

    /** The executions of one message, in order. */
    method HandleMessage(events: seq<Event>, maxFills: nat)
      modifies this
      ensures View() == Run(old(View()), events, maxFills)
    {
      hide Step;
      for i := 0 to |events|
        invariant Run(View(), events[i..], maxFills) == Run(old(View()), events, maxFills)
      {
        assert events[i..][1..] == events[i + 1..];
        var alert := HandleExecution(events[i].x, events[i].ok, events[i].kept, maxFills);
      }
    }
  }

  /**
    The net profit that an alert reports after a run differs from the one written to the row by exactly
    what the row stood at when the record was started, and the net of the fills that the record lost.
   */
  lemma AlertIsRowNet(events: seq<Event>, e: Event, maxFills: nat)
    requires OkRun(events) && AllOk(e.ok)
    ensures var l := Run(NO_POSITIONS, events, maxFills);
      var alert := FinalAlert(l, e.x, e.ok, e.kept, maxFills);
      alert.Some? ==>
        var key, rows := Target(l.store, e.x).value, Ordered(l, e.x, e.ok, e.kept, maxFills).rows;
        var carried, h := CarriedOver(NO_POSITIONS, events, maxFills, key, 0.0),
                          RunTrace(NO_POSITIONS, events, maxFills, key, NO_TRACE);
        var lost := OrderTrace(l, e.x, e.ok, e.kept, maxFills, key, h).lost;
        && key in rows && rows[key].closed
        && rows[key].pnlNet == alert.value + carried + lost
        && (rows[key].pnlNet == alert.value <==> carried + lost == 0.0)
        && (NeverReused(NO_POSITIONS, events, maxFills, key) ==> carried == 0.0)
  {
    hide Run, RunTotals, RunTrace, NeverReused, OkRun, AllOk, RowsStory, TracedAt, Stories, Ordered, Target,
         OrderTotals, OrderTrace, Leftover, CarriedOver, NetPnl;
    var l, t := Run(NO_POSITIONS, events, maxFills), RunTotals(NO_POSITIONS, NO_TOTALS, events, maxFills);
    if FinalAlert(l, e.x, e.ok, e.kept, maxFills).Some? {
      var key := Target(l.store, e.x).value;
      var h := RunTrace(NO_POSITIONS, events, maxFills, key, NO_TRACE);
      NothingYet(maxFills, key);
      NothingLeftYet(key);
      RowsRun(NO_POSITIONS, NO_TOTALS, events, maxFills);
      RowsOrdered(l, t, e.x, e.ok, e.kept, maxFills);
      RunTraces(NO_POSITIONS, NO_TOTALS, events, maxFills, key, NO_TRACE);
      OrderTraces(l, t, e.x, e.ok, e.kept, maxFills, key, h);
      LeftoverIsCarriedOver(NO_POSITIONS, NO_TOTALS, events, maxFills, key);
      FillLeaves(l, t, e.x, key);
      ClosedAgrees(Ordered(l, e.x, e.ok, e.kept, maxFills), OrderTotals(l, t, e.x), key,
                   OrderTrace(l, e.x, e.ok, e.kept, maxFills, key, h));
      if NeverReused(NO_POSITIONS, events, maxFills, key) {
        NothingCarriedOver(NO_POSITIONS, events, maxFills, key);
      }
    }
  }

  lemma FillLeaves(l: Ledger, t: Totals, x: Execution, key: string)
    requires BranchOf(x) != Open
    ensures Leftover(OrderTotals(l, t, x), key) == Leftover(t, key)
  {
    hide Target, IsOpen, IsClose;
  }

  // ----- One execution, column by column -----

  /** A plain order that closes nothing: it enters. */
  predicate Enters(x: Execution) {
    x.usedKey != "" && x.stop == NoStop && !x.funding && x.qty > 0 && x.closedSize == 0 && x.pnl == 0.0
  }

  /** A take-profit or stop-loss order, or a plain one that closes something: it exits. */
  predicate Exits(x: Execution) {
    x.usedKey != ""
    && (x.stop == TakeProfit || x.stop == StopLoss
        || (x.stop == NoStop && !x.funding && x.qty > 0 && x.closedSize > 0))
  }

  lemma BranchIs(x: Execution)
    ensures BranchOf(x) == Open <==> Enters(x)
    ensures BranchOf(x) == TpFill <==> Exits(x) && (x.stop == TakeProfit || (x.stop == NoStop && x.tpMarket))
    ensures BranchOf(x) == SlFill <==> Exits(x) && x.stop == StopLoss
    ensures BranchOf(x) == CloseFill <==> Exits(x) && x.stop == NoStop && !x.tpMarket
    ensures BranchOf(x) == NoFill <==> !Enters(x) && !Exits(x)
    ensures Exits(x) <==> IsFill(x)
  {
  }

  /** The record of this key becomes r, trimmed if saving keeps it; the others are only trimmed. */
  ghost predicate OnlyRecord(l: Ledger, l': Ledger, key: string, r: Rec, kept: seq<string>, maxFills: nat) {
    && l'.store.recs.Keys == l.store.recs.Keys + {key}
    && l'.store.order == (if key in l.store.recs then l.store.order else l.store.order + [key])
    && forall k :: k in l'.store.recs ==>
         l'.store.recs[k] ==
           var after := if k == key then r else l.store.recs[k];
           if k in kept then Trim(after, maxFills) else after
  }

  ghost predicate OnlyRow(rows: map<string, Row>, rows': map<string, Row>, key: string) {
    forall k :: k != key ==> (k in rows' <==> k in rows) && (k in rows ==> rows'[k] == rows[k])
  }

  lemma SavedRecords(l: Ledger, mid: Ledger, key: string, r: Rec, kept: seq<string>, maxFills: nat)
    requires mid.store.recs == SetRec(l.store, key, r).recs && mid.store.order == SetRec(l.store, key, r).order
    ensures OnlyRecord(l, Save(mid, kept, maxFills), key, r, kept, maxFills)
  {
    hide Trim;
  }

  /** The columns that an entry adds to. */
  predicate EntryAdded(before: Rec, r: Rec, x: Execution) {
    && r.entrySize == before.entrySize + x.qty && r.currentSize == before.currentSize + x.qty
    && Notional(r.entryPrice, r.entrySize) == Notional(before.entryPrice, before.entrySize) + Notional(x.price, x.qty)
    && r.openFee == before.openFee + x.fee && r.execValue == before.execValue + Notional(x.price, x.qty)
    && (if r.execValue != 0.0 then r.openFeeRate * r.execValue == r.openFee else r.openFeeRate == x.feeRate)
    && r.(entrySize := before.entrySize, currentSize := before.currentSize, entryPrice := before.entryPrice,
          openFee := before.openFee, execValue := before.execValue, openFeeRate := before.openFeeRate) == before
  }

  predicate EntryStarted(r: Rec, x: Execution) {
    && r.symbol == x.symbol && r.side == (if x.side == Buy then Long else Short)
    && r.strategy == (if x.zoneKey then Zone else Manual)
    && r.entryPrice == x.price && r.entrySize == r.currentSize == x.qty && r.openFee == x.fee && r.execValue == x.value
    && (if x.value != 0.0 then r.openFeeRate * x.value == x.fee else r.openFeeRate == x.feeRate)
    && r.entryTime == x.time && r.exitTime == "" && !r.closed && r.fills == []
  }

  predicate RowEntered(rows: map<string, Row>, rows': map<string, Row>, key: string, x: Execution) {
    && key in rows'
    && if key !in rows then
         rows'[key] == Row(x.price, x.qty, x.price * x.qty as real, x.fee, false, 0.0, 0.0, 0.0, [])
       else
         var row, row' := rows[key], rows'[key];
         && row'.entryQty == row.entryQty + x.qty && row'.entryValue == row.entryValue + x.price * x.qty as real
         && row'.feeOpen == row.feeOpen + x.fee && row'.entryPrice * row'.entryQty as real == row'.entryValue
         && row'.(entryPrice := row.entryPrice, entryQty := row.entryQty, entryValue := row.entryValue,
                  feeOpen := row.feeOpen) == row
  }

  lemma RowOfEntry(rows: map<string, Row>, key: string, x: Execution)
    requires x.qty > 0
    ensures var rows' := UpsertRow(rows, key, x.price, x.qty, x.fee);
      OnlyRow(rows, rows', key) && RowEntered(rows, rows', key, x)
  {
  }

  lemma EntryOfRecord(before: Rec, x: Execution)
    requires x.qty > 0
    ensures EntryAdded(before, AddEntry(before, x), x) && EntryStarted(NewRec(x), x)
  {
  }

  /**
    What an entry does: it adds to the open record under its key, or replaces what is there by a new one;
    the row of the key accumulates; no other record or row is touched.
   */
  lemma EntryBooks(l: Ledger, x: Execution, ok: DbOk, kept: seq<string>, maxFills: nat) returns (r: Rec)
    requires Enters(x)
    ensures var l' := Ordered(l, x, ok, kept, maxFills);
      var key := if x.zoneKey then x.usedKey
                 else "manual|" + x.symbol + "|" + if x.side == Buy then "Long" else "Short";
      && OnlyRecord(l, l', key, r, kept, maxFills)
      && (if key in l.store.recs && !l.store.recs[key].closed then EntryAdded(l.store.recs[key], r, x)
          else EntryStarted(r, x))
      && OnlyRow(l.rows, l'.rows, key)
      && (if ok.upsert then RowEntered(l.rows, l'.rows, key, x) else l'.rows == l.rows)
      && FinalAlert(l, x, ok, kept, maxFills) == None
  {
    BranchIs(x);
    hide UpsertRow, AddEntry, NewRec, OnlyRow, RowEntered, EntryAdded, EntryStarted, Trim, IsOpen, IsClose, Enters,
         OnlyRecord, Saved;
    var key := EntryKey(x);
    assert key == if x.zoneKey then x.usedKey
                  else "manual|" + x.symbol + "|" + if x.side == Buy then "Long" else "Short";
    OpenHasQty(x);
    RowOfEntry(l.rows, key, x);
    SameRows(l.rows, key);
    EntryOfRecord(if key in l.store.recs then l.store.recs[key] else NewRec(x), x);
    r := if CreatesRecord(l.store, key) then NewRec(x) else AddEntry(l.store.recs[key], x);
    SavedRecords(l, OrderStep(l, x, ok), key, r, kept, maxFills);
  }

  lemma SameRows(rows: map<string, Row>, key: string)
    ensures OnlyRow(rows, rows, key)
  {
  }

  /** The row of this key takes one fill, and is finalized when asked to. */
  predicate RowBooked(rows: map<string, Row>, rows': map<string, Row>, key: string, f: DbFill, final: bool, ok: DbOk) {
    if key !in rows then key !in rows'
    else
      && key in rows'
      && var row, row' := rows[key], rows'[key];
      && row'.fills == row.fills + (if ok.insert then [f] else [])
      && (if final && ok.finalize then
            && row'.closed && row'.pnlGross == DbPnl(row'.fills) && row'.feeClose == DbFee(row'.fills)
            && row'.pnlNet == row'.pnlGross - row'.feeClose - row.feeOpen
          else row'.closed == row.closed && row'.pnlGross == row.pnlGross && row'.feeClose == row.feeClose
               && row'.pnlNet == row.pnlNet)
      && row'.(fills := row.fills, closed := row.closed, pnlGross := row.pnlGross, feeClose := row.feeClose,
               pnlNet := row.pnlNet) == row
  }

  lemma RowOfFill(rows: map<string, Row>, key: string, f: DbFill, final: bool, ok: DbOk)
    ensures var rows' := Booked(rows, key, f, final, ok);
      OnlyRow(rows, rows', key) && RowBooked(rows, rows', key, f, final, ok)
  {
    hide DbPnl, DbFee;
    assert key in rows && !ok.insert ==> rows[key].fills + [] == rows[key].fills;
  }

  /** The fills after one was recorded: its label holds it, every other label holds what it held. */
  ghost predicate Recorded(before: seq<Entry>, after: seq<Entry>, name: string, f: Fill) {
    && HasLabel(after, name) && Held(after, name) == f
    && (forall other :: other != name ==>
          Held(after, other) == Held(before, other) && (HasLabel(after, other) <==> HasLabel(before, other)))
    && |after| == |before| + (if HasLabel(before, name) then 0 else 1)
  }

  lemma {:induction false} PutHolds(fills: seq<Entry>, name: string, f: Fill, other: string)
    ensures var after := Put(fills, name, f);
      && Held(after, other) == (if other == name then f else Held(fills, other))
      && (HasLabel(after, other) <==> other == name || HasLabel(fills, other))
  {
    var after := Put(fills, name, f);
    if fills != [] && fills[0].name != name {
      PutHolds(fills[1..], name, f, other);
      assert after[0] == fills[0] && after[1..] == Put(fills[1..], name, f);
    } else {
      assert after[0] == Entry(name, f) && after[1..] == if fills == [] then [] else fills[1..];
    }
  }

  lemma PutRecords(fills: seq<Entry>, name: string, f: Fill)
    ensures Recorded(fills, Put(fills, name, f), name, f)
  {
    hide Put, Held, HasLabel;
    PutSums(fills, name, f);
    forall other
      ensures var after := Put(fills, name, f);
        && Held(after, other) == (if other == name then f else Held(fills, other))
        && (HasLabel(after, other) <==> other == name || HasLabel(fills, other))
    {
      PutHolds(fills, name, f, other);
    }
  }

  function Larger(a: int, b: int): int {
    if a >= b then a else b
  }

  /** What is left of a record's size after a fill under a label. */
  function Left(r: Rec, x: Execution): int {
    var implied := Larger(0, r.entrySize - ClosedQty(r.fills));
    var size := if implied < r.currentSize then implied else r.currentSize;
    if x.stop == StopLoss then r.currentSize
    else if x.stop == NoStop && !x.tpMarket then Larger(0, size - x.qty)
    else
      var filled := ClosedQty(r.fills) - Held(r.fills, "TP_" + x.time).qty + x.qty;
      if r.entrySize - filled < r.currentSize then Larger(0, r.entrySize - filled) else r.currentSize
  }

  /** What an exit makes of an open record: its name, its kind, whether it closes, and the new columns. */
  ghost predicate ExitDone(before: Rec, r: Rec, x: Execution, kind: FillKind) {
    var market := x.stop == NoStop && !x.tpMarket;
    var name :=
      if x.stop == StopLoss then "SL" else if !market then "TP_" + x.time
      else if Left(before, x) > 0 then "Manual_Reduce_" + x.time
      else if x.zoneKey && before.strategy == Zone then "Zone_Strategy_Exit" else "Manual_Exit";
    var earned := x.pnl - x.fee - before.entryPrice * x.qty as real * before.openFeeRate;
    && r.currentSize == Left(before, x) && (r.closed <==> x.stop == StopLoss || Left(before, x) == 0)
    && r.exitTime == (if r.closed then x.time else before.exitTime)
    && Recorded(before.fills, r.fills, name, Fill(x.pnl, x.fee, Some(x.price), x.qty, x.time))
    && r.(currentSize := before.currentSize, closed := before.closed, exitTime := before.exitTime,
          fills := before.fills) == before
    && kind == (if x.stop == StopLoss then SL else if !market then TP
                else if !x.zoneKey && Left(before, x) > 0 && earned >= 0.0 then TP else EXIT)
  }

  lemma FillOfRecord(before: Rec, x: Execution)
    requires Exits(x) && !before.closed
    ensures ExitDone(before, FillRec(before, x), x, FillKindOf(before, x))
  {
    hide Put, Held, HasLabel, Recorded, Enters, IsOpen, IsClose;
    BranchIs(x);
    PutRecords(before.fills, FillLabel(before, x), FillOf(x));
    PutSums(before.fills, FillLabel(before, x), FillOf(x));
  }

  /**
    What an exit does to the open record it concerns, and to the row: size, name, kind and close follow
    the order type; a close is alerted with the net of the saved record; nothing else is touched.
   */
  lemma ExitBooks(l: Ledger, x: Execution, ok: DbOk, kept: seq<string>, maxFills: nat, key: string)
    returns (r: Rec, kind: FillKind)
    requires Exits(x) && Target(l.store, x) == Some(key) && key in l.store.recs
    ensures var l' := Ordered(l, x, ok, kept, maxFills);
      && OnlyRecord(l, l', key, r, kept, maxFills) && ExitDone(l.store.recs[key], r, x, kind)
      && OnlyRow(l.rows, l'.rows, key)
      && RowBooked(l.rows, l'.rows, key, DbFill(kind, x.price, x.qty, x.pnl, x.fee), r.closed, ok)
      && FinalAlert(l, x, ok, kept, maxFills)
           == if r.closed then Some(NetPnl(if key in kept then Trim(r, maxFills) else r)) else None
  {
    hide FillRec, FillKindOf, Booked, OnlyRow, RowBooked, ExitDone, OnlyRecord, Saved, Trim, IsOpen, IsClose, Exits,
         Newest, SetRec, NetPnl;
    BranchIs(x);
    var before := l.store.recs[key];
    assert !before.closed;
    r, kind := FillRec(before, x), FillKindOf(before, x);
    FillStepIs(l, key, x, ok);
    FillOfRecord(before, x);
    RowOfFill(l.rows, key, DbFill(kind, x.price, x.qty, x.pnl, x.fee), r.closed, ok);
    SavedRecords(l, OrderStep(l, x, ok), key, r, kept, maxFills);
    RecordAt(l, Ordered(l, x, ok, kept, maxFills), key, r, kept, maxFills);
  }

  lemma RecordAt(l: Ledger, l': Ledger, key: string, r: Rec, kept: seq<string>, maxFills: nat)
    requires OnlyRecord(l, l', key, r, kept, maxFills)
    ensures key in l'.store.recs && l'.store.recs[key] == if key in kept then Trim(r, maxFills) else r
    ensures Trim(r, maxFills).closed == r.closed
  {
  }

  /** A payment is booked on the latest open record of the side, as profit of minus the fee. */
  lemma PaymentBooks(l: Ledger, x: Execution, ok: DbOk, kept: seq<string>, maxFills: nat, key: string)
    returns (r: Rec)
    requires x.funding && FundingTarget(l.store, x) == Some(key) && key in l.store.recs
    ensures var l', before := Paid(l, x, ok, kept, maxFills), l.store.recs[key];
      && OnlyRecord(l, l', key, r, kept, maxFills)
      && Recorded(before.fills, r.fills, "Funding_" + x.time, Fill(-x.fee, 0.0, None, 0, x.time))
      && r.(fills := before.fills) == before
      && OnlyRow(l.rows, l'.rows, key)
      && RowBooked(l.rows, l'.rows, key, DbFill(FUNDING, before.entryPrice, 0, -x.fee, 0.0), false, ok)
  {
    hide Put, Booked, OnlyRow, RowBooked, OnlyRecord, Saved, Newest, SetRec, Recorded;
    var before := l.store.recs[key];
    r := FundingRec(before, x);
    PutRecords(before.fills, "Funding_" + x.time, Fill(-x.fee, 0.0, None, 0, x.time));
    RowOfFill(l.rows, key, DbFill(FUNDING, before.entryPrice, 0, -x.fee, 0.0), false, ok);
    SavedRecords(l, PaymentStep(l, x, ok), key, r, kept, maxFills);
  }

  /**
    When each of the two happens: an execution without a key, or an exit that finds no record, does nothing
    at all; otherwise an entry or exit is booked, and then a payment, if it finds a record.
   */
  lemma StepIsBoth(l: Ledger, x: Execution, ok: DbOk, kept: seq<string>, maxFills: nat)
    ensures var l' := if Enters(x) || Exits(x) then Ordered(l, x, ok, kept, maxFills) else l;
      Step(l, x, ok, kept, maxFills) ==
        if x.usedKey == "" || (Exits(x) && Target(l.store, x).None?) then l
        else if x.funding && FundingTarget(l'.store, x).Some? then Paid(l', x, ok, kept, maxFills)
        else l'
  {
    hide OrderStep, PaymentStep, Save, Resolve, IsOpen, IsClose, Enters, Exits;
    BranchIs(x);
  }

  /** Which record a payment concerns: the latest open one of the side it was paid on. */
  lemma PaysTheLatest(events: seq<Event>, maxFills: nat, x: Execution, key: string)
    ensures var s := Run(NO_POSITIONS, events, maxFills).store;
      FundingTarget(s, x) == Some(key) <==>
        exists i: nat :: LatestOpen(s, s.order, i, x.symbol, if x.side == Buy then Long else Short) && s.order[i] == key
  {
    hide Run, Resolve, OpenFor, LatestOpen;
    LatestRecordIsFound(events, maxFills, x.symbol, OpenedSide(x), None, key);
  }
}
