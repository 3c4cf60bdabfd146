/**
  The zone projection: a read table that should always be a function of the zone table
  (zone_state_repo.py, zone_projection_repo.py, zone_projection.py, crud.py, projection_ddl.py).

  Zones are stored under the sides LONG and SHORT; a side given as text is normalized as each entry
  point normalizes it. Times are integers, prices are reals.
 */
module ZoneProjection {
  import opened Options
  import opened PyText
  import opened ZoneSides

  datatype Key = Key(symbol: string, interval: int, start: int, side: Side)

  datatype Zone = Zone(
    end: Option<int>, baseEntry: real, baseSl: real, baseUpper: real, baseLower: real,
    entryOverride: Option<real>, active: bool)

  datatype Projected = Projected(
    end: Option<int>, baseEntry: real, baseSl: real, entryOverride: Option<real>,
    renderEntry: real, renderSl: real, renderUpper: real, renderLower: real, active: bool, broken: bool)

  function Max(a: real, b: real): real {
    if a >= b then a else b
  }

  function Min(a: real, b: real): real {
    if a <= b then a else b
  }

  /** build_zone_projection_payload. */
  function Payload(side: Side, z: Zone): Projected {
    var broken := z.end.Some?;
    var active := if broken then false else z.active;
    match z.entryOverride
    case None =>
      Projected(z.end, z.baseEntry, z.baseSl, None, z.baseEntry, z.baseSl,
                Max(z.baseEntry, z.baseSl), Min(z.baseEntry, z.baseSl), active, broken)
    case Some(entry) =>
      if side == LONG then
        Projected(z.end, z.baseEntry, z.baseSl, Some(entry), entry, z.baseSl, entry, z.baseSl, active, broken)
      else
        Projected(z.end, z.baseEntry, z.baseSl, Some(entry), entry, z.baseSl, z.baseSl, entry, active, broken)
  }

  /**
    The drawn band is the interval between entry, overridden or not, and stop, unless an override is on the
    wrong side of the stop. The row is active while its zone is and has not ended.
   */
  lemma BandIsOrdered(side: Side, z: Zone)
    ensures var p := Payload(side, z);
      && {p.renderUpper, p.renderLower} == {p.renderEntry, p.renderSl}
      && (p.renderLower <= p.renderUpper <==>
            z.entryOverride.None?
            || (if side == LONG then z.baseSl <= z.entryOverride.value else z.entryOverride.value <= z.baseSl))
      && p.renderEntry == (match z.entryOverride case Some(entry) => entry case None => z.baseEntry)
      && p.renderSl == p.baseSl == z.baseSl && p.baseEntry == z.baseEntry && p.entryOverride == z.entryOverride
      && p.end == z.end && (p.broken <==> z.end.Some?) && (p.active <==> z.active && !p.broken)
  {
  }

  /** The columns that the seeding query computes in SQL. */
  function SeedRow(side: Side, z: Zone): Projected {
    Projected(
      z.end, z.baseEntry, z.baseSl, z.entryOverride,
      if z.entryOverride.None? then z.baseEntry else z.entryOverride.value,
      z.baseSl,
      if z.entryOverride.None? then Max(z.baseEntry, z.baseSl)
      else if side == SHORT then z.baseSl else z.entryOverride.value,
      if z.entryOverride.None? then Min(z.baseEntry, z.baseSl)
      else if side == SHORT then z.entryOverride.value else z.baseSl,
      if z.end.Some? then false else z.active,
      z.end.Some?)
  }

  /** The SQL and the Python derive the same projection row. */
  lemma SeedAgrees(side: Side, z: Zone)
    ensures SeedRow(side, z) == Payload(side, z)
  {
  }

  // ----- The two tables -----

  datatype Tables = Tables(zones: map<Key, Zone>, projection: map<Key, Projected>)

  const EMPTY := Tables(map[], map[])

  /** A row that differs from what its zone implies, or is missing. */
  predicate StaleAt(t: Tables, k: Key) {
    k in t.zones && (k !in t.projection || t.projection[k] != Payload(k.side, t.zones[k]))
  }

  function Stale(t: Tables): set<Key> {
    set k | k in t.zones && StaleAt(t, k)
  }

  /** The projection has one row per zone, and each is the payload of its zone. */
  predicate IsView(t: Tables) {
    t.projection.Keys == t.zones.Keys && forall k :: k in t.zones ==> t.projection[k] == Payload(k.side, t.zones[k])
  }

  // ----- Writes -----

  function SyncKey(t: Tables, k: Key): Tables {
    if k !in t.zones then t else t.(projection := t.projection[k := Payload(k.side, t.zones[k])])
  }

  function SyncKeys(t: Tables, keys: set<Key>): Tables {
    t.(projection := map k | k in t.projection.Keys + keys * t.zones.Keys ::
         if k in keys && k in t.zones then Payload(k.side, t.zones[k]) else t.projection[k])
  }

  function KeySet(rows: seq<Key>): set<Key> {
    set k | k in rows
  }

  lemma SyncOneMore(t: Tables, keys: set<Key>, k: Key)
    ensures SyncKey(SyncKeys(t, keys), k) == SyncKeys(t, keys + {k})
    ensures SyncKeys(t, {}) == t
  {
    hide Payload;
    assert SyncKey(SyncKeys(t, keys), k).projection == SyncKeys(t, keys + {k}).projection;
    assert SyncKeys(t, {}).projection == t.projection;
  }

  /** One zone is written; its row follows if the sync after the committed statement succeeds. */
  function WriteZone(t: Tables, k: Key, z: Zone, synced: bool): Tables {
    var t' := t.(zones := t.zones[k := z]);
    if synced then SyncKey(t', k) else t'
  }

  datatype Box = Box(key: Key, end: Option<int>, baseEntry: real, baseSl: real, baseUpper: real, baseLower: real)

  /** An upsert of the base columns; endsActive says whether giving an end clears is_active. */
  function Based(t: Tables, b: Box, endsActive: bool): Zone {
    if b.key in t.zones then
      var z := t.zones[b.key];
      z.(end := b.end, baseEntry := b.baseEntry, baseSl := b.baseSl, baseUpper := b.baseUpper, baseLower := b.baseLower,
         active := if endsActive && b.end.Some? then false else z.active)
    else Zone(b.end, b.baseEntry, b.baseSl, b.baseUpper, b.baseLower, None, false)
  }

  function BoxKeys(boxes: seq<Box>): set<Key> {
    set i | 0 <= i < |boxes| :: boxes[i].key
  }

  function BulkPut(t: Tables, boxes: seq<Box>): Tables
    decreases |boxes|
  {
    if boxes == [] then t else BulkPut(WriteZone(t, boxes[0].key, Based(t, boxes[0], false), true), boxes[1..])
  }

  /** The call would add one zone, or one projection row, twice: its session does not see its own additions. */
  predicate AddsTwice(t: Tables, boxes: seq<Box>) {
    exists i, j :: 0 <= i < j < |boxes| && boxes[i].key == boxes[j].key
      && (boxes[j].key !in t.zones || boxes[j].key !in t.projection)
  }

  /** bulk_upsert_zones: all boxes in turn, or nothing when the commit fails on a key added twice. */
  function BulkUpsert(t: Tables, boxes: seq<Box>): Tables {
    if AddsTwice(t, boxes) then t else BulkPut(t, boxes)
  }

  predicate PastStop(side: Side, close: real, sl: real) {
    if side == LONG then close < sl else close > sl
  }

  /** The close ends the zone at k. */
  predicate Hit(zones: map<Key, Zone>, k: Key, symbol: string, interval: int, close: real) {
    k in zones && k.symbol == symbol && k.interval == interval
    && zones[k].end.None? && PastStop(k.side, close, zones[k].baseSl)
  }

  function Hits(zones: map<Key, Zone>, symbol: string, interval: int, close: real): set<Key> {
    set k | k in zones && Hit(zones, k, symbol, interval, close)
  }

  function Ended(z: Zone, at: int): Zone {
    z.(end := Some(at), active := false)
  }

  function EndHits(zones: map<Key, Zone>, symbol: string, interval: int, at: int, close: real): map<Key, Zone> {
    map k | k in zones :: if Hit(zones, k, symbol, interval, close) then Ended(zones[k], at) else zones[k]
  }

  /** The zones past their stop are ended in one statement; their rows are synced one by one. */
  function BreakByClose(t: Tables, symbol: string, interval: int, at: int, close: real, synced: set<Key>): Tables {
    SyncKeys(t.(zones := EndHits(t.zones, symbol, interval, at, close)),
        synced * Hits(t.zones, symbol, interval, close))
  }

  predicate OpenAt(t: Tables, k: Key) {
    k in t.zones && t.zones[k].end.None?
  }

  predicate OnAt(t: Tables, k: Key) {
    OpenAt(t, k) && t.zones[k].active
  }

  function Deactivate(t: Tables, k: Key, synced: bool): Tables {
    if OnAt(t, k) then WriteZone(t, k, t.zones[k].(active := false), synced) else t
  }

  /** mark_zone_broken_by_key: ends the zone and leaves the projection alone. */
  function BreakByKey(t: Tables, k: Key, at: int, deactivate: bool): Tables {
    if !OpenAt(t, k) then t
    else
      var z := t.zones[k];
      WriteZone(t, k, z.(end := Some(at), active := if deactivate then false else z.active), false)
  }

  /** upsert_zone_state; the override is only touched when the request names it. */
  function SetState(t: Tables, k: Key, active: bool, override: Option<Option<real>>): Tables {
    if k !in t.zones then t
    else
      var z := t.zones[k].(active := active);
      WriteZone(t, k, if override.Some? then z.(entryOverride := override.value) else z, true)
  }

  /** Insert the projection rows that are missing. */
  function Seed(t: Tables): Tables {
    t.(projection := map k | k in t.projection.Keys + t.zones.Keys ::
         if k in t.projection then t.projection[k] else SeedRow(k.side, t.zones[k]))
  }

  /**
    The writes, with what became of them. The zone repository commits every statement by itself, so a
    database error may strike between a zone's write and the sync of its row; the CRUD calls commit both
    or nothing. A write that fails altogether is no write.
   */
  datatype Write =
    | UpsertZone(box: Box, synced: bool)
    | Bulk(boxes: seq<Box>)
    | CloseBreak(symbol: string, interval: int, at: int, close: real, rowsSynced: set<Key>)
    | Off(key: Key, synced: bool)
    | KeyBreak(key: Key, at: int, deactivate: bool)
    | State(key: Key, active: bool, override: Option<Option<real>>)
    | SeedMissing

  function Apply(t: Tables, w: Write): Tables {
    match w
    case UpsertZone(box, synced) => WriteZone(t, box.key, Based(t, box, true), synced)
    case Bulk(boxes) => BulkUpsert(t, boxes)
    case CloseBreak(symbol, interval, at, close, rows) => BreakByClose(t, symbol, interval, at, close, rows)
    case Off(key, synced) => Deactivate(t, key, synced)
    case KeyBreak(key, at, deactivate) => BreakByKey(t, key, at, deactivate)
    case State(key, active, override) => SetState(t, key, active, override)
    case SeedMissing => Seed(t)
  }

  function Run(t: Tables, writes: seq<Write>): Tables
    decreases |writes|
  {
    if writes == [] then t else Run(Apply(t, writes[0]), writes[1..])
  }

  // ----- What a write writes, and what it syncs -----

  /** The zones that a write writes. */
  function Written(t: Tables, w: Write): set<Key> {
    match w
    case UpsertZone(box, _) => {box.key}
    case Bulk(boxes) => if AddsTwice(t, boxes) then {} else BoxKeys(boxes)
    case CloseBreak(symbol, interval, _, close, _) => Hits(t.zones, symbol, interval, close)
    case Off(key, _) => if OnAt(t, key) then {key} else {}
    case KeyBreak(key, _, _) => if OpenAt(t, key) then {key} else {}
    case State(key, _, _) => if key in t.zones then {key} else {}
    case SeedMissing => {}
  }

  /** The zones whose rows a write syncs. */
  function Synced(t: Tables, w: Write): set<Key> {
    match w
    case UpsertZone(box, synced) => if synced then {box.key} else {}
    case CloseBreak(symbol, interval, _, close, rows) => rows * Hits(t.zones, symbol, interval, close)
    case Off(key, synced) => if synced then Written(t, w) else {}
    case KeyBreak(_, _, _) => {}
    case SeedMissing => t.zones.Keys - t.projection.Keys
    case _ => Written(t, w)
  }

  /** A write touches the zones it writes and the rows it syncs, and nothing else. */
  predicate Frame(t: Tables, t': Tables, written: set<Key>, synced: set<Key>) {
    && t'.zones.Keys == t.zones.Keys + written && synced <= t'.zones.Keys
    && t'.projection.Keys == t.projection.Keys + synced
    && (forall k :: k in t.zones && k !in written ==> t'.zones[k] == t.zones[k])
    && (forall k :: k in t'.projection ==>
          t'.projection[k] == if k in synced then Payload(k.side, t'.zones[k]) else t.projection[k])
  }

  lemma WriteZoneFrame(t: Tables, k: Key, z: Zone, synced: bool)
    ensures Frame(t, WriteZone(t, k, z, synced), {k}, if synced then {k} else {})
  {
    hide Payload;
  }

  lemma FrameTwice(t: Tables, mid: Tables, t': Tables, a: set<Key>, b: set<Key>)
    requires Frame(t, mid, a, a) && Frame(mid, t', b, b)
    ensures Frame(t, t', a + b, a + b)
  {
    hide Payload;
  }

  lemma {:induction false} BulkFrame(t: Tables, boxes: seq<Box>)
    ensures Frame(t, BulkPut(t, boxes), BoxKeys(boxes), BoxKeys(boxes))
    decreases |boxes|
  {
    hide Frame, WriteZone, Based;
    if boxes == [] {
      SameFrame(t);
      assert BoxKeys(boxes) == {};
    } else {
      var b := boxes[0];
      var mid := WriteZone(t, b.key, Based(t, b, false), true);
      WriteZoneFrame(t, b.key, Based(t, b, false), true);
      BulkFrame(mid, boxes[1..]);
      FrameTwice(t, mid, BulkPut(t, boxes), {b.key}, BoxKeys(boxes[1..]));
      assert boxes == [b] + boxes[1..];
      assert BoxKeys(boxes) == {b.key} + BoxKeys(boxes[1..]);
    }
  }

  lemma SameFrame(t: Tables)
    ensures Frame(t, t, {}, {})
  {
  }

  lemma CloseFrame(t: Tables, symbol: string, interval: int, at: int, close: real, rows: set<Key>)
    ensures var hits := Hits(t.zones, symbol, interval, close);
      Frame(t, BreakByClose(t, symbol, interval, at, close, rows), hits, rows * hits)
  {
    hide Payload, PastStop;
  }

  lemma SeedFrame(t: Tables)
    ensures Frame(t, Seed(t), {}, t.zones.Keys - t.projection.Keys)
  {
    hide Payload, SeedRow;
    forall k | k in t.zones
      ensures SeedRow(k.side, t.zones[k]) == Payload(k.side, t.zones[k])
    {
      SeedAgrees(k.side, t.zones[k]);
    }
  }

  lemma ApplyFrame(t: Tables, w: Write)
    ensures Frame(t, Apply(t, w), Written(t, w), Synced(t, w))
  {
    hide Frame, WriteZone, BulkPut, BoxKeys, BreakByClose, Hits, Seed, Based, AddsTwice;
    SameFrame(t);
    match w
    case UpsertZone(box, synced) => WriteZoneFrame(t, box.key, Based(t, box, true), synced);
    case Bulk(boxes) => BulkFrame(t, boxes);
    case CloseBreak(symbol, interval, at, close, rows) => CloseFrame(t, symbol, interval, at, close, rows);
    case Off(key, synced) =>
      if OnAt(t, key) {
        WriteZoneFrame(t, key, t.zones[key].(active := false), synced);
      }
    case KeyBreak(key, at, deactivate) =>
      if OpenAt(t, key) {
        BrokenZone(t, key, at, deactivate);
        WriteZoneFrame(t, key, Apply(t, w).zones[key], false);
      }
    case State(key, active, override) =>
      if key in t.zones {
        var z := t.zones[key].(active := active);
        WriteZoneFrame(t, key, if override.Some? then z.(entryOverride := override.value) else z, true);
      }
    case SeedMissing => SeedFrame(t);
  }

  lemma BrokenZone(t: Tables, k: Key, at: int, deactivate: bool)
    requires OpenAt(t, k)
    ensures k in BreakByKey(t, k, at, deactivate).zones
    ensures BreakByKey(t, k, at, deactivate) == WriteZone(t, k, BreakByKey(t, k, at, deactivate).zones[k], false)
  {
  }

  // ----- The projection shows each zone as it was last synced -----

  /** The zones as their rows were last synced. */
  function ShownAfter(shown: map<Key, Zone>, t: Tables, w: Write): map<Key, Zone> {
    var t' := Apply(t, w);
    map k | k in shown.Keys + Synced(t, w) * t'.zones.Keys ::
      if k in Synced(t, w) && k in t'.zones then t'.zones[k] else shown[k]
  }

  function RunShown(shown: map<Key, Zone>, t: Tables, writes: seq<Write>): map<Key, Zone>
    decreases |writes|
  {
    if writes == [] then shown else RunShown(ShownAfter(shown, t, writes[0]), Apply(t, writes[0]), writes[1..])
  }

  /** The zones written since their rows were last synced. */
  function UnsyncedAfter(unsynced: set<Key>, t: Tables, w: Write): set<Key> {
    unsynced + Written(t, w) - Synced(t, w)
  }

  function RunUnsynced(unsynced: set<Key>, t: Tables, writes: seq<Write>): set<Key>
    decreases |writes|
  {
    if writes == [] then unsynced
    else RunUnsynced(UnsyncedAfter(unsynced, t, writes[0]), Apply(t, writes[0]), writes[1..])
  }

  /** Every row is the payload of its zone as last synced, and what is not unsynced is shown as it is. */
  predicate Kept(t: Tables, shown: map<Key, Zone>, unsynced: set<Key>) {
    && t.projection.Keys == shown.Keys && shown.Keys <= t.zones.Keys && unsynced <= t.zones.Keys
    && (forall k :: k in shown ==> t.projection[k] == Payload(k.side, shown[k]))
    && (forall k :: k in t.zones && k !in unsynced ==> k in shown && shown[k] == t.zones[k])
  }

  lemma FrameKeeps(t: Tables, shown: map<Key, Zone>, unsynced: set<Key>, w: Write)
    requires Kept(t, shown, unsynced)
    ensures Kept(Apply(t, w), ShownAfter(shown, t, w), UnsyncedAfter(unsynced, t, w))
  {
    hide Payload, Apply, Written, Synced;
    ApplyFrame(t, w);
  }

  lemma {:induction false} RunKeeps(t: Tables, shown: map<Key, Zone>, unsynced: set<Key>, writes: seq<Write>)
    requires Kept(t, shown, unsynced)
    ensures Kept(Run(t, writes), RunShown(shown, t, writes), RunUnsynced(unsynced, t, writes))
    decreases |writes|
  {
    hide Kept, Apply, ShownAfter, UnsyncedAfter;
    if writes != [] {
      FrameKeeps(t, shown, unsynced, writes[0]);
      RunKeeps(Apply(t, writes[0]), ShownAfter(shown, t, writes[0]), UnsyncedAfter(unsynced, t, writes[0]),
          writes[1..]);
    }
  }

  /**
    After any writes, with any errors between their statements, the projection is exactly the payloads of
    the zones as last synced.
   */
  lemma RowsShowLastSync(writes: seq<Write>)
    ensures var t, shown := Run(EMPTY, writes), RunShown(map[], EMPTY, writes);
      && t.projection == (map k | k in shown :: Payload(k.side, shown[k]))
      && shown.Keys <= t.zones.Keys
  {
    hide Run, RunShown, RunUnsynced, Payload;
    RunKeeps(EMPTY, map[], {}, writes);
  }

  /**
    After any writes, a row is missing or differs from its zone exactly when the zone was never synced, or
    would be drawn differently when it was; that only happens to zones written since their last sync.
   */
  lemma StaleRows(writes: seq<Write>)
    ensures var t, shown := Run(EMPTY, writes), RunShown(map[], EMPTY, writes);
      && Stale(t) <= RunUnsynced({}, EMPTY, writes) <= t.zones.Keys
      && forall k :: k in Stale(t) <==>
           k in t.zones && (k !in shown || Payload(k.side, shown[k]) != Payload(k.side, t.zones[k]))
  {
    hide Run, RunShown, RunUnsynced, Payload;
    RunKeeps(EMPTY, map[], {}, writes);
  }

  /** The write syncs every zone it writes: no error struck between, and no open zone is ended by key. */
  predicate Whole(t: Tables, w: Write) {
    match w
    case UpsertZone(_, synced) => synced
    case CloseBreak(symbol, interval, _, close, rows) => Hits(t.zones, symbol, interval, close) <= rows
    case Off(key, synced) => synced || !OnAt(t, key)
    case KeyBreak(key, _, _) => !OpenAt(t, key)
    case _ => true
  }

  predicate WholeRun(t: Tables, writes: seq<Write>)
    decreases |writes|
  {
    writes != [] ==> Whole(t, writes[0]) && WholeRun(Apply(t, writes[0]), writes[1..])
  }

  lemma WholeSyncsAll(t: Tables, w: Write)
    ensures Whole(t, w) <==> Written(t, w) <= Synced(t, w)
  {
    hide Hit, AddsTwice;
  }

  lemma {:induction false} NothingUnsynced(t: Tables, writes: seq<Write>)
    requires WholeRun(t, writes)
    ensures RunUnsynced({}, t, writes) == {}
    decreases |writes|
  {
    hide Whole, Written, Synced, Apply;
    if writes != [] {
      WholeSyncsAll(t, writes[0]);
      assert UnsyncedAfter({}, t, writes[0]) == {};
      NothingUnsynced(Apply(t, writes[0]), writes[1..]);
    }
  }

  /** While every write syncs what it writes, the projection is the view of the zones. */
  lemma ProjectionIsAView(writes: seq<Write>)
    requires WholeRun(EMPTY, writes)
    ensures IsView(Run(EMPTY, writes))
  {
    hide Run, RunShown, RunUnsynced, WholeRun, Payload;
    RunKeeps(EMPTY, map[], {}, writes);
    NothingUnsynced(EMPTY, writes);
  }

  /** No error strikes between statements; zones may still be ended by key. */
  predicate UntornRun(t: Tables, writes: seq<Write>)
    decreases |writes|
  {
    writes != [] ==> (writes[0].KeyBreak? || Whole(t, writes[0])) && UntornRun(Apply(t, writes[0]), writes[1..])
  }

  /** Each unsynced zone has ended, and its row still shows it open. */
  predicate EndedUnseen(t: Tables, shown: map<Key, Zone>, unsynced: set<Key>) {
    forall k :: k in unsynced ==> k in t.zones && t.zones[k].end.Some? && k in shown && shown[k].end.None?
  }

  lemma UntornStep(t: Tables, shown: map<Key, Zone>, unsynced: set<Key>, w: Write)
    requires Kept(t, shown, unsynced) && EndedUnseen(t, shown, unsynced) && (w.KeyBreak? || Whole(t, w))
    ensures EndedUnseen(Apply(t, w), ShownAfter(shown, t, w), UnsyncedAfter(unsynced, t, w))
  {
    hide Apply, Written, Synced, Payload, Whole;
    ApplyFrame(t, w);
    if w.KeyBreak? {
      KeyBreakWrites(t, w);
    } else {
      WholeSyncsAll(t, w);
    }
  }

  lemma KeyBreakWrites(t: Tables, w: Write)
    requires w.KeyBreak?
    ensures Synced(t, w) == {} && Written(t, w) == if OpenAt(t, w.key) then {w.key} else {}
    ensures OpenAt(t, w.key) ==> w.key in Apply(t, w).zones && Apply(t, w).zones[w.key].end.Some?
  {
    hide Payload;
  }

  lemma {:induction false} UntornKeeps(t: Tables, shown: map<Key, Zone>, unsynced: set<Key>, writes: seq<Write>)
    requires Kept(t, shown, unsynced) && EndedUnseen(t, shown, unsynced) && UntornRun(t, writes)
    ensures EndedUnseen(Run(t, writes), RunShown(shown, t, writes), RunUnsynced(unsynced, t, writes))
    decreases |writes|
  {
    hide Kept, Apply, ShownAfter, UnsyncedAfter, EndedUnseen, Whole;
    if writes != [] {
      FrameKeeps(t, shown, unsynced, writes[0]);
      UntornStep(t, shown, unsynced, writes[0]);
      UntornKeeps(Apply(t, writes[0]), ShownAfter(shown, t, writes[0]), UnsyncedAfter(unsynced, t, writes[0]),
          writes[1..]);
    }
  }

  /**
    Without such errors, the rows that differ from their zones are exactly those of open zones ended by
    key and not synced since; every zone has a row, and a stale one still shows the zone as unbroken.
   */
  lemma StaleExactlyAfterKeyBreaks(writes: seq<Write>)
    requires UntornRun(EMPTY, writes)
    ensures Stale(Run(EMPTY, writes)) == RunUnsynced({}, EMPTY, writes)
    ensures Run(EMPTY, writes).projection.Keys == Run(EMPTY, writes).zones.Keys
    ensures forall k :: k in Stale(Run(EMPTY, writes)) ==>
      Run(EMPTY, writes).zones[k].end.Some? && !Run(EMPTY, writes).projection[k].broken
  {
    hide Run, RunShown, RunUnsynced, UntornRun;
    RunKeeps(EMPTY, map[], {}, writes);
    UntornKeeps(EMPTY, map[], {}, writes);
    UnseenIsStale(Run(EMPTY, writes), RunShown(map[], EMPTY, writes), RunUnsynced({}, EMPTY, writes));
  }

  lemma UnseenIsStale(t: Tables, shown: map<Key, Zone>, unsynced: set<Key>)
    requires Kept(t, shown, unsynced) && EndedUnseen(t, shown, unsynced)
    ensures Stale(t) == unsynced && t.projection.Keys == t.zones.Keys
    ensures forall k :: k in unsynced ==> t.zones[k].end.Some? && !t.projection[k].broken
  {
    forall k | k in t.zones
      ensures k in shown && (k in Stale(t) <==> k in unsynced)
    {
      if k in unsynced {
        assert Payload(k.side, t.zones[k]).broken && !t.projection[k].broken;
      }
    }
  }

  // ----- When one write keeps the view -----

  /** The upsert brings nothing that the projection draws. */
  predicate DrawsSame(t: Tables, b: Box) {
    b.key in t.zones && b.end == t.zones[b.key].end && b.baseEntry == t.zones[b.key].baseEntry
    && b.baseSl == t.zones[b.key].baseSl
  }

  lemma FrameKeepsViewIff(t: Tables, t': Tables, written: set<Key>, synced: set<Key>)
    requires IsView(t) && Frame(t, t', written, synced) && synced <= written
    ensures IsView(t') <==>
      forall k :: k in written && k !in synced ==>
        k in t.zones && Payload(k.side, t'.zones[k]) == Payload(k.side, t.zones[k])
  {
    hide Payload;
  }

  lemma UpsertDraws(t: Tables, b: Box)
    requires b.key in t.zones
    ensures Payload(b.key.side, Based(t, b, true)) == Payload(b.key.side, t.zones[b.key]) <==> DrawsSame(t, b)
  {
  }

  /**
    From a view, a write keeps the view exactly when it syncs all it writes, or is an upsert that changes
    nothing drawn.
   */
  lemma WriteKeepsViewIff(t: Tables, w: Write)
    requires IsView(t)
    ensures IsView(Apply(t, w)) <==> Whole(t, w) || (w.UpsertZone? && DrawsSame(t, w.box))
  {
    hide Payload, Frame, BulkUpsert, WriteZone, Based, DrawsSame, AddsTwice, Seed, IsView;
    var t' := Apply(t, w);
    ApplyFrame(t, w);
    WholeSyncsAll(t, w);
    if w.SeedMissing? {
      SeedOfView(t);
    } else {
      SyncedIsWritten(t, w);
      FrameKeepsViewIff(t, t', Written(t, w), Synced(t, w));
      forall k | k in Written(t, w) && k !in Synced(t, w)
        ensures k in t'.zones
        ensures k in t.zones && Payload(k.side, t'.zones[k]) == Payload(k.side, t.zones[k]) <==>
          w.UpsertZone? && DrawsSame(t, w.box)
      {
        UnsyncedDraws(t, w, k);
      }
    }
  }

  lemma SeedOfView(t: Tables)
    requires IsView(t)
    ensures Seed(t) == t
  {
  }

  lemma SyncedIsWritten(t: Tables, w: Write)
    requires !w.SeedMissing?
    ensures Synced(t, w) <= Written(t, w)
  {
    hide Hit, AddsTwice;
  }

  /** Ending or switching off an open zone always changes what is drawn. */
  lemma UnsyncedDraws(t: Tables, w: Write, k: Key)
    requires k in Written(t, w) && k !in Synced(t, w)
    ensures k in Apply(t, w).zones
    ensures k in t.zones && Payload(k.side, Apply(t, w).zones[k]) == Payload(k.side, t.zones[k]) <==>
      w.UpsertZone? && DrawsSame(t, w.box)
  {
    hide BulkUpsert, AddsTwice, Based, DrawsSame;
    match w
    case UpsertZone(box, _) =>
      if box.key in t.zones {
        UpsertDraws(t, box);
      } else {
        assert !DrawsSame(t, box) by {
          NewDraws(t, box);
        }
      }
    case CloseBreak(symbol, interval, at, close, rows) =>
      assert Payload(k.side, Apply(t, w).zones[k]).broken && !Payload(k.side, t.zones[k]).broken;
    case Off(key, _) =>
      assert !Payload(k.side, Apply(t, w).zones[k]).active && Payload(k.side, t.zones[k]).active;
    case KeyBreak(key, at, deactivate) =>
      assert Payload(k.side, Apply(t, w).zones[k]).broken && !Payload(k.side, t.zones[k]).broken;
    case _ =>
  }

  lemma NewDraws(t: Tables, b: Box)
    requires b.key !in t.zones
    ensures !DrawsSame(t, b)
  {
  }

  /** One of each: what a row is left as when an error strikes between the zone's write and its sync. */
  lemma TornWrites(k: Key, b: Box, at: int, close: real)
    requires b.key == k && b.end.None? && PastStop(k.side, close, b.baseSl)
    ensures var inserted := Run(EMPTY, [UpsertZone(b, false)]);
      k in inserted.zones && k !in inserted.projection
    ensures var off := Run(EMPTY, [UpsertZone(b, true), State(k, true, None), Off(k, false)]);
      k in off.zones && !off.zones[k].active && k in off.projection && off.projection[k].active
    ensures var broken := Run(EMPTY, [UpsertZone(b, true), CloseBreak(k.symbol, k.interval, at, close, {})]);
      k in broken.zones && broken.zones[k].end == Some(at) && k in broken.projection && !broken.projection[k].broken
  {
    hide Run;
    var z := Zone(None, b.baseEntry, b.baseSl, b.baseUpper, b.baseLower, None, false);
    var p := Payload(k.side, z);
    var on := z.(active := true);
    Steps(EMPTY, UpsertZone(b, false), []);
    Steps(EMPTY, UpsertZone(b, true), [State(k, true, None), Off(k, false)]);
    Steps(EMPTY, UpsertZone(b, true), [CloseBreak(k.symbol, k.interval, at, close, {})]);
    var one := Tables(map[k := z], map[k := p]);
    assert Apply(EMPTY, UpsertZone(b, true)) == one;
    Steps(one, State(k, true, None), [Off(k, false)]);
    var two := Tables(map[k := on], map[k := Payload(k.side, on)]);
    assert Apply(one, State(k, true, None)) == two;
    Steps(two, Off(k, false), []);
    Steps(one, CloseBreak(k.symbol, k.interval, at, close, {}), []);
  }

  lemma Steps(t: Tables, w: Write, rest: seq<Write>)
    ensures Run(t, [w] + rest) == Run(Apply(t, w), rest)
    ensures Run(Apply(t, w), []) == Apply(t, w)
    ensures rest == [] ==> [w] + rest == [w]
    ensures |rest| == 1 ==> [w] + rest == [w, rest[0]]
    ensures |rest| == 2 ==> [w] + rest == [w, rest[0], rest[1]]
  {
    hide Apply;
    assert ([w] + rest)[1..] == rest;
  }

  /** Ending a zone by key keeps the view exactly when there is no open zone under the key. */
  lemma KeyBreakKeepsViewIff(t: Tables, k: Key, at: int, deactivate: bool)
    requires IsView(t)
    ensures IsView(BreakByKey(t, k, at, deactivate)) <==> !OpenAt(t, k)
  {
    hide IsView, BreakByKey, OpenAt, DrawsSame;
    WriteKeepsViewIff(t, KeyBreak(k, at, deactivate));
  }

  /** Seeding completes a partial projection into the view exactly when the rows it had were right. */
  lemma SeedCompletes(t: Tables)
    requires t.projection.Keys <= t.zones.Keys
    ensures IsView(Seed(t)) <==> forall k :: k in t.projection ==> t.projection[k] == Payload(k.side, t.zones[k])
  {
    hide Payload, SeedRow;
    SeedFrame(t);
    var t' := Seed(t);
    assert t'.zones == t.zones;
    assert forall k :: k in t.projection ==> t'.projection[k] == t.projection[k] && k in t'.zones;
  }

  /**
    A close leaves no open zone of its symbol and interval past its stop, a long one with the close below
    it or a short one with the close above: it ends exactly those, changes nothing else about them, and
    touches no other zone, however many rows it then syncs.
   */
  lemma BreakByCloseEnds(t: Tables, symbol: string, interval: int, at: int, close: real, rows: set<Key>, k: Key)
    requires k in t.zones
    ensures var t', z := BreakByClose(t, symbol, interval, at, close, rows), t.zones[k];
      var broken := k.symbol == symbol && k.interval == interval && z.end.None?
        && (if k.side == LONG then close < z.baseSl else z.baseSl < close);
      && t'.zones.Keys == t.zones.Keys
      && !Hit(t'.zones, k, symbol, interval, close)
      && (k in Hits(t.zones, symbol, interval, close) <==> broken)
      && t'.zones[k] == if broken then z.(end := Some(at), active := false) else z
  {
  }

  /** The last box that names this key, if one does. */
  function LastBox(boxes: seq<Box>, k: Key): (r: Option<Box>)
    ensures r.Some? ==> r.value.key == k
    decreases |boxes|
  {
    if boxes == [] then None
    else
      var later := LastBox(boxes[1..], k);
      if later.Some? then later else if boxes[0].key == k then Some(boxes[0]) else None
  }

  /** The base columns are those of the box; what the user set stays, and a new zone starts switched off. */
  predicate BasedOn(before: map<Key, Zone>, z: Zone, b: Box) {
    && z.end == b.end && z.baseEntry == b.baseEntry && z.baseSl == b.baseSl
    && z.baseUpper == b.baseUpper && z.baseLower == b.baseLower
    && (if b.key in before then z.entryOverride == before[b.key].entryOverride && z.active == before[b.key].active
        else z.entryOverride == None && !z.active)
  }

  lemma {:induction false} BulkZones(t: Tables, boxes: seq<Box>, k: Key)
    ensures var zones := BulkPut(t, boxes).zones;
      match LastBox(boxes, k)
      case None => (k in zones <==> k in t.zones) && (k in zones ==> zones[k] == t.zones[k])
      case Some(b) => k in zones && BasedOn(t.zones, zones[k], b)
    decreases |boxes|
  {
    hide Payload;
    if boxes != [] {
      BulkZones(WriteZone(t, boxes[0].key, Based(t, boxes[0], false), true), boxes[1..], k);
    }
  }

  /** What every write makes of the zone under a key, column by column; a write of other keys leaves it. */
  lemma WhatIsWritten(t: Tables, w: Write, k: Key)
    requires k in Apply(t, w).zones
    ensures var after := Apply(t, w).zones[k];
      match w
      case UpsertZone(b, _) =>
        if k == b.key then BasedOn(t.zones, after.(active := k in t.zones && t.zones[k].active), b)
                           && (after.active <==> k in t.zones && t.zones[k].active && b.end.None?)
        else k in t.zones && after == t.zones[k]
      case Bulk(boxes) =>
        (match LastBox(if AddsTwice(t, boxes) then [] else boxes, k)
         case Some(b) => BasedOn(t.zones, after, b)
         case None => k in t.zones && after == t.zones[k])
      case CloseBreak(symbol, interval, at, close, _) =>
        k in t.zones && after ==
          if k.symbol == symbol && k.interval == interval && t.zones[k].end.None?
             && (if k.side == LONG then close < t.zones[k].baseSl else t.zones[k].baseSl < close)
          then t.zones[k].(end := Some(at), active := false) else t.zones[k]
      case Off(key, _) =>
        k in t.zones && after ==
          if k == key && t.zones[k].end.None? then t.zones[k].(active := false) else t.zones[k]
      case KeyBreak(key, at, deactivate) =>
        k in t.zones && after ==
          if k == key && t.zones[k].end.None?
          then t.zones[k].(end := Some(at), active := t.zones[k].active && !deactivate) else t.zones[k]
      case State(key, active, override) =>
        k in t.zones && after ==
          if k != key then t.zones[k]
          else t.zones[k].(active := active,
                           entryOverride := if override.Some? then override.value else t.zones[k].entryOverride)
      case SeedMissing => k in t.zones && after == t.zones[k]
  {
    hide Payload, AddsTwice, BulkPut;
    if w.Bulk? {
      BulkZones(t, if AddsTwice(t, w.boxes) then [] else w.boxes, k);
      NothingLeft(t, []);
    }
  }

  /** The strategy's upsert keeps what the user set: the override always, the switch while the zone is open. */
  lemma UpsertKeepsUserState(t: Tables, b: Box, synced: bool)
    ensures var t' := Apply(t, UpsertZone(b, synced));
      var z := t'.zones[b.key];
      && z.end == b.end
      && (z.baseEntry, z.baseSl, z.baseUpper, z.baseLower) == (b.baseEntry, b.baseSl, b.baseUpper, b.baseLower)
      && (b.key in t.zones ==> z.entryOverride == t.zones[b.key].entryOverride)
      && (b.key !in t.zones ==> z.entryOverride == None)
      && (z.active <==> b.key in t.zones && t.zones[b.key].active && b.end.None?)
      && forall k :: k in t.zones && k != b.key ==> t'.zones[k] == t.zones[k]
  {
  }

  // ----- The repositories -----

  datatype Delta = Delta(start: int, side: Side, end: int)

  function DeltaOf(k: Key, at: int): Delta {
    Delta(k.start, k.side, at)
  }

  /** What the database does to a zone statement and the sync after it. */
  datatype Outcome = Done | Torn | Lost

  class ZoneTables {
    var zones: map<Key, Zone>
    var projection: map<Key, Projected>

    constructor ()
      ensures View() == EMPTY
    {
      zones, projection := map[], map[];
    }

    function View(): Tables
      reads this
    {
      Tables(zones, projection)
    }

    method Sync(k: Key)
      modifies this`projection
      ensures View() == SyncKey(old(View()), k)
    {
      if k in zones {
        projection := projection[k := Payload(k.side, zones[k])];
      }
    }

    /** False when the call raises. */
    method Upsert(symbol: string, interval: int, start: int, end: Option<int>, side: string,
                  entry: real, sl: real, upper: real, lower: real, outcome: Outcome) returns (ok: bool)
      modifies this
      ensures ok <==> outcome == Done
      ensures View() ==
        if outcome == Lost then old(View())
        else Apply(old(View()),
                   UpsertZone(Box(Key(symbol, interval, start, SideOrLong(side)), end, entry, sl, upper, lower), ok))
    {
      hide Payload;
      if outcome == Lost {
        return false;
      }
      var sideUp := Upper(side);
      if sideUp != "LONG" && sideUp != "SHORT" {
        sideUp := "LONG";
      }
      var k := Key(symbol, interval, start, if sideUp == "LONG" then LONG else SHORT);
      if k in zones {
        var z := zones[k].(end := end, baseEntry := entry, baseSl := sl, baseUpper := upper, baseLower := lower);
        if end.Some? {
          z := z.(active := false);
        }
        zones := zones[k := z];
      } else {
        zones := zones[k := Zone(end, entry, sl, upper, lower, None, false)];
      }
      if outcome == Torn {
        return false;
      }
      Sync(k);
      return true;
    }

    /** The rows a close ends, in some order. */
    method SelectHits(symbol: string, interval: int, close: real) returns (rows: seq<Key>)
      ensures forall k :: k in rows <==> k in Hits(zones, symbol, interval, close)
      ensures |rows| == |Hits(zones, symbol, interval, close)|
    {
      var todo := Hits(zones, symbol, interval, close);
      rows := [];
      while todo != {}
        invariant todo <= Hits(zones, symbol, interval, close)
        invariant forall k :: k in rows <==> k in Hits(zones, symbol, interval, close) - todo
        invariant |rows| + |todo| == |Hits(zones, symbol, interval, close)|
        decreases |todo|
      {
        var k :| k in todo;
        todo := todo - {k};
        rows := rows + [k];
      }
    }

    /** Sync the rows in turn until an error strikes; false when one does. */
    method SyncRows(rows: seq<Key>, succeeding: nat) returns (ok: bool)
      modifies this`projection
      ensures ok <==> |rows| <= succeeding
      ensures View() == SyncKeys(old(View()), KeySet(if ok then rows else rows[..succeeding]))
    {
      hide Payload;
      assert KeySet(rows[..0]) == {};
      SyncOneMore(View(), {}, Key("", 0, 0, LONG));
      for i := 0 to |rows|
        invariant i <= succeeding
        invariant View() == SyncKeys(old(View()), KeySet(rows[..i]))
      {
        if i == succeeding {
          return false;
        }
        assert rows[..i + 1] == rows[..i] + [rows[i]];
        SyncOneMore(old(View()), KeySet(rows[..i]), rows[i]);
        assert KeySet(rows[..i]) + {rows[i]} == KeySet(rows[..i + 1]);
        Sync(rows[i]);
      }
      assert rows[..|rows|] == rows;
      return true;
    }

    /**
      End the zones a close has broken. Without an error the result names exactly those; after an error in
      the syncs it names none although all are ended, and only the first rows are synced.
     */
    method MarkBrokenByClose(symbol: string, interval: int, at: int, close: real, lost: bool, succeeding: nat)
      returns (delta: Option<seq<Delta>>, ghost rows: seq<Key>)
      modifies this
      ensures lost ==> delta.None? && View() == old(View())
      ensures !lost ==>
        && |rows| == |Hits(old(zones), symbol, interval, close)|
        && (forall k :: k in rows <==> k in Hits(old(zones), symbol, interval, close))
        && View() == Apply(old(View()), CloseBreak(symbol, interval, at, close,
                             KeySet(if |rows| <= succeeding then rows else rows[..succeeding])))
        && (delta.Some? <==> |rows| <= succeeding)
      ensures delta.Some? ==>
        |delta.value| == |rows| && forall i :: 0 <= i < |rows| ==> delta.value[i] == DeltaOf(rows[i], at)
    {
      hide Payload, Hit;
      rows := [];
      if lost {
        return None, [];
      }
      var selected := SelectHits(symbol, interval, close);
      rows := selected;
      var ok := true;
      if |selected| > 0 {
        zones := EndHits(zones, symbol, interval, at, close);
        ok := SyncRows(selected, succeeding);
        ghost var synced := if ok then selected else selected[..succeeding];
        assert KeySet(synced) * Hits(old(zones), symbol, interval, close) == KeySet(synced);
      } else {
        NoHits(View(), symbol, interval, at, close, KeySet(rows));
      }
      delta := if ok then Some(seq(|selected|, i requires 0 <= i < |selected| => DeltaOf(selected[i], at))) else None;
    }

    /** Whether an open, active zone was switched off; no answer when an error strikes, even after the switch. */
    method DeactivateByKey(symbol: string, interval: int, start: int, side: string, outcome: Outcome)
      returns (updated: Option<bool>)
      modifies this
      ensures outcome == Lost ==> updated.None? && View() == old(View())
      ensures outcome != Lost && ReadSide(side).None? ==> updated == Some(false) && View() == old(View())
      ensures outcome != Lost && ReadSide(side).Some? ==>
        var k := Key(symbol, interval, start, ReadSide(side).value);
        && View() == Apply(old(View()), Off(k, outcome == Done))
        && updated == if !OnAt(old(View()), k) then Some(false) else if outcome == Done then Some(true) else None
    {
      hide Payload;
      if outcome == Lost {
        return None;
      }
      var filter := ReadSide(side);
      if filter.Some? {
        var k := Key(symbol, interval, start, filter.value);
        if k in zones && zones[k].end == None && zones[k].active {
          zones := zones[k := zones[k].(active := false)];
          if outcome == Torn {
            return None;
          }
          Sync(k);
          return Some(true);
        }
      }
      return Some(false);
    }

    /** False also when the statement fails. */
    method MarkBrokenByKey(
      symbol: string, interval: int, start: int, side: string, at: int, deactivate: bool, lost: bool)
      returns (updated: bool)
      modifies this
      ensures lost || ReadSide(side).None? ==> !updated && View() == old(View())
      ensures !lost && ReadSide(side).Some? ==>
        var k := Key(symbol, interval, start, ReadSide(side).value);
        View() == Apply(old(View()), KeyBreak(k, at, deactivate)) && (updated <==> OpenAt(old(View()), k))
    {
      updated := false;
      var filter := ReadSide(side);
      if !lost && filter.Some? {
        var k := Key(symbol, interval, start, filter.value);
        if k in zones && zones[k].end == None {
          zones := zones[k := zones[k].(end := Some(at))];
          if deactivate {
            zones := zones[k := zones[k].(active := false)];
          }
          updated := true;
        }
      }
    }

    /** The user's switch and override. It raises, and changes nothing, without the zone or the commit. */
    method UpsertState(symbol: string, interval: int, start: int, side: string, active: bool,
                       override: Option<Option<real>>, commits: bool) returns (ok: bool)
      modifies this
      ensures var k := Key(symbol, interval, start, SideOrLong(Strip(side)));
        && (ok <==> k in old(zones) && commits)
        && View() == if ok then Apply(old(View()), State(k, active, override)) else old(View())
    {
      hide Payload;
      var k := Key(symbol, interval, start, SideOrLong(Strip(side)));
      if k !in zones || !commits {
        return false;
      }
      zones := zones[k := zones[k].(active := active)];
      if override.Some? {
        zones := zones[k := zones[k].(entryOverride := override.value)];
      }
      Sync(k);
      return true;
    }

    /**
      One transaction for all boxes; none at all for no boxes. The session looks zones and rows up in the
      tables, so it adds a new one once for every box that names it, and the commit then raises.
     */
    method BulkUpsertZones(boxes: seq<Box>, commits: bool) returns (count: Option<nat>)
      modifies this
      ensures count ==
        if boxes == [] || (commits && !AddsTwice(old(View()), boxes)) then Some(|boxes|) else None
      ensures View() == if count.Some? then Apply(old(View()), Bulk(boxes)) else old(View())
    {
      hide AddsTwice, BoxKeys, BulkPut, WriteZone;
      if |boxes| == 0 {
        NoBoxes(View());
        return Some(0);
      }
      var session, clash := View(), false;
      NothingAdded(View(), boxes);
      for n := 0 to |boxes|
        invariant View() == old(View())
        invariant clash <==> AddsTwice(View(), boxes[..n])
        invariant session.zones.Keys == zones.Keys + BoxKeys(boxes[..n])
        invariant !clash ==> BulkPut(session, boxes[n..]) == BulkPut(View(), boxes)
      {
        var b := boxes[n];
        AddsAnother(View(), boxes, n);
        PutsAnother(session, boxes, n);
        if (b.key !in zones || b.key !in projection) && b.key in BoxKeys(boxes[..n]) {
          clash := true;
        }
        var z := Zone(b.end, b.baseEntry, b.baseSl, b.baseUpper, b.baseLower, None, false);
        if b.key in session.zones {
          z := session.zones[b.key].(end := b.end, baseEntry := b.baseEntry, baseSl := b.baseSl,
                                     baseUpper := b.baseUpper, baseLower := b.baseLower);
        }
        session := WriteZone(session, b.key, z, true);
      }
      NothingLeft(session, boxes);
      if clash || !commits {
        return None;
      }
      zones, projection := session.zones, session.projection;
      return Some(|boxes|);
    }
  }

  lemma NoBoxes(t: Tables)
    ensures Apply(t, Bulk([])) == t
  {
  }

  lemma NothingAdded(t: Tables, boxes: seq<Box>)
    ensures !AddsTwice(t, boxes[..0]) && BoxKeys(boxes[..0]) == {} && boxes[0..] == boxes
  {
  }

  lemma NothingLeft(t: Tables, boxes: seq<Box>)
    ensures BulkPut(t, boxes[|boxes|..]) == t && boxes[..|boxes|] == boxes
  {
  }

  lemma PutsAnother(t: Tables, boxes: seq<Box>, n: nat)
    requires n < |boxes|
    ensures var t' := WriteZone(t, boxes[n].key, Based(t, boxes[n], false), true);
      && BulkPut(t, boxes[n..]) == BulkPut(t', boxes[n + 1..])
      && t'.zones.Keys == t.zones.Keys + {boxes[n].key}
  {
    assert boxes[n..][1..] == boxes[n + 1..];
  }

  lemma AddsAnother(t: Tables, boxes: seq<Box>, n: nat)
    requires n < |boxes|
    ensures AddsTwice(t, boxes[..n + 1]) <==>
      AddsTwice(t, boxes[..n])
      || ((boxes[n].key !in t.zones || boxes[n].key !in t.projection) && boxes[n].key in BoxKeys(boxes[..n]))
    ensures BoxKeys(boxes[..n + 1]) == BoxKeys(boxes[..n]) + {boxes[n].key}
  {
    var before, now := boxes[..n], boxes[..n + 1];
    assert now == before + [boxes[n]];
    if AddsTwice(t, before) {
      var i, j :| 0 <= i < j < |before| && before[i].key == before[j].key
        && (before[j].key !in t.zones || before[j].key !in t.projection);
      assert now[i] == before[i] && now[j] == before[j];
    }
    if (boxes[n].key !in t.zones || boxes[n].key !in t.projection) && boxes[n].key in BoxKeys(before) {
      var i :| 0 <= i < n && before[i].key == boxes[n].key;
      assert now[i].key == now[n].key;
    }
  }

  lemma NoHits(t: Tables, symbol: string, interval: int, at: int, close: real, rows: set<Key>)
    requires |Hits(t.zones, symbol, interval, close)| == 0
    ensures BreakByClose(t, symbol, interval, at, close, rows) == t
  {
    forall k | k in t.zones
      ensures !Hit(t.zones, k, symbol, interval, close)
    {
      assert k !in Hits(t.zones, symbol, interval, close);
    }
  }
}
