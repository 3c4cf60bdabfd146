/**
  The two text forms of a zone's key and their parsers (zone_ids.py): the parent id
  zonebox|symbol|interval|start|SIDE and the shorter order id znSYMBOL-interval-start-L-nnnnn.
 */
module ZoneIds {
  import opened Options
  import opened PyText
  import opened ZoneSides

  datatype Meta = Meta(symbol: string, interval: int, start: int, side: Side)

  /** A zone as the callers hold it; absent numbers make int() raise. */
  datatype BoxKey = BoxKey(symbol: Option<string>, interval: Option<int>, start: Option<int>, side: Option<string>)

  function SideName(s: Side): string {
    if s == LONG then "LONG" else "SHORT"
  }

  function SideLetter(s: Side): string {
    if s == LONG then "L" else "S"
  }

  /** str(symbol or default): an absent symbol without a default prints as "None". */
  function SymbolText(symbol: Option<string>, default: Option<string>): string {
    if symbol.Some? && symbol.value != "" then symbol.value
    else if default.Some? then default.value
    else "None"
  }

  function MetaOf(box: BoxKey, default: Option<string>): Option<Meta> {
    var side := ReadSide(if box.side.Some? then box.side.value else "");
    if box.interval.None? || box.start.None? || side.None? then None
    else Some(Meta(SymbolText(box.symbol, default), box.interval.value, box.start.value, side.value))
  }

  // ----- Printing -----

  function ParentId(m: Meta): string {
    "zonebox|" + m.symbol + "|" + Str(m.interval) + "|" + Str(m.start) + "|" + SideName(m.side)
  }

  /** str(n).zfill(5) */
  function Padded(s: string): string
    decreases 5 - |s|
  {
    if |s| >= 5 then s else Padded("0" + s)
  }

  function Suffix(nowMs: int): string {
    Padded(Dec(nowMs % 100000))
  }

  function OrderId(m: Meta, nowMs: int): string {
    "zn" + m.symbol + "-" + Str(m.interval) + "-" + Str(m.start) + "-" + SideLetter(m.side) + "-" + Suffix(nowMs)
  }

  function PrintParent(box: BoxKey, default: Option<string>): Option<string> {
    var m := MetaOf(box, default);
    if m.None? then None else Some(ParentId(m.value))
  }

  function PrintOrder(box: BoxKey, default: Option<string>, nowMs: int): Option<string> {
    var m := MetaOf(box, default);
    if m.None? then None else Some(OrderId(m.value, nowMs))
  }

  // ----- Parsing -----

  predicate IsOrderId(s: string) {
    var parts := Split(s, '-');
    "zn" <= s && |parts| >= 5 && |parts[0]| > 2
  }

  function ParseOrderId(s: string): Option<Meta> {
    var parts := Split(s, '-');
    if !IsOrderId(s) then None
    else
      var interval, start := ParseInt(parts[1]), ParseInt(parts[2]);
      var side := if parts[3] == "L" then Some(LONG) else if parts[3] == "S" then Some(SHORT) else None;
      if interval.None? || start.None? || side.None? then None
      else Some(Meta(parts[0][2..], interval.value, start.value, side.value))
  }

  function ParentOfOrderId(s: string): Option<string> {
    var m := ParseOrderId(s);
    if m.None? then None else Some(ParentId(m.value))
  }

  function ParseParentId(s: string): Option<Meta> {
    var parts := Split(s, '|');
    if !("zonebox|" <= s) || |parts| != 5 then None
    else
      var side, interval, start := ReadSide(parts[4]), ParseInt(parts[2]), ParseInt(parts[3]);
      if side.None? || interval.None? || start.None? then None
      else Some(Meta(parts[1], interval.value, start.value, side.value))
  }

  // ----- Round trips -----

  lemma StrHas(n: int)
    ensures '|' !in Str(n)
    ensures '-' in Str(n) <==> n < 0
    ensures n < 0 ==> Str(n) == "-" + Dec(-n) && '-' !in Dec(-n)
  {
    if n < 0 {
      assert Str(n)[0] == '-';
    }
  }

  lemma {:induction false} PaddedHas(s: string, c: char)
    ensures c in Padded(s) ==> c in s || c == '0'
    decreases 5 - |s|
  {
    if |s| < 5 {
      PaddedHas("0" + s, c);
    }
  }

  lemma SuffixHasNoDash(nowMs: int)
    ensures '-' !in Suffix(nowMs)
  {
    PaddedHas(Dec(nowMs % 100000), '-');
  }

  lemma ParentShape(m: Meta)
    ensures ParentId(m) == "zonebox" + ['|']
      + (m.symbol + ['|'] + (Str(m.interval) + ['|'] + (Str(m.start) + ['|'] + SideName(m.side))))
    ensures ParentId(m) == (("zonebox|" + m.symbol) + ['|'] + Str(m.interval) + ['|'] + Str(m.start)) + ['|']
      + SideName(m.side)
  {
  }

  /** A printed parent id has the five parts it was printed from exactly when the symbol adds none. */
  lemma ParentParts(m: Meta)
    ensures '|' !in m.symbol ==>
      Split(ParentId(m), '|') == ["zonebox", m.symbol, Str(m.interval), Str(m.start), SideName(m.side)]
    ensures '|' in m.symbol ==> |Split(ParentId(m), '|')| > 5
  {
    var d := SideName(m.side);
    var c := Str(m.start) + ['|'] + d;
    var b := Str(m.interval) + ['|'] + c;
    var a := m.symbol + ['|'] + b;
    ParentShape(m);
    StrHas(m.interval);
    StrHas(m.start);
    SplitFirst("zonebox", '|', a);
    SplitFirst(Str(m.interval), '|', c);
    SplitFirst(Str(m.start), '|', d);
    SplitNone(d, '|');
    if '|' !in m.symbol {
      SplitFirst(m.symbol, '|', b);
    } else {
      SplitCount(a, '|');
      SplitCount(b, '|');
      SplitCount(m.symbol, '|');
      CountOfConcat(m.symbol + ['|'], b, '|');
      CountOfConcat(m.symbol, ['|'], '|');
    }
  }

  lemma SideReadsBack(side: Side)
    ensures ReadSide(SideName(side)) == Some(side)
  {
    assert Upper(SideName(side)) == SideName(side);
  }

  /** Parsing a printed parent id gives back the zone exactly when the symbol has no bar. */
  lemma ParentRoundTrip(m: Meta)
    ensures ParseParentId(ParentId(m)) == Some(m) <==> '|' !in m.symbol
    ensures '|' in m.symbol ==> ParseParentId(ParentId(m)) == None
  {
    hide Str, Split, ParseInt, ReadSide;
    ParentParts(m);
    ParseStr(m.interval);
    ParseStr(m.start);
    SideReadsBack(m.side);
    assert "zonebox|" <= ParentId(m);
  }

  /** Different zones have different parent ids, whatever their symbols contain. */
  lemma ParentIdentifies(m: Meta, n: Meta)
    requires ParentId(m) == ParentId(n)
    ensures m == n
  {
    ParentShape(m);
    ParentShape(n);
    StrHas(m.interval);
    StrHas(m.start);
    StrHas(n.interval);
    StrHas(n.start);
    var mi, ni := "zonebox|" + m.symbol, "zonebox|" + n.symbol;
    var ms, ns := mi + ['|'] + Str(m.interval), ni + ['|'] + Str(n.interval);
    LastPieceForced(ms + ['|'] + Str(m.start), SideName(m.side), ns + ['|'] + Str(n.start), SideName(n.side), '|');
    LastPieceForced(ms, Str(m.start), ns, Str(n.start), '|');
    LastPieceForced(mi, Str(m.interval), ni, Str(n.interval), '|');
    ParseStr(m.interval);
    ParseStr(n.interval);
    ParseStr(m.start);
    ParseStr(n.start);
    assert m.symbol == mi[8..] && n.symbol == ni[8..];
  }

  predicate Printable(m: Meta) {
    m.symbol != "" && '-' !in m.symbol && m.interval >= 0 && m.start >= 0
  }

  /** The parts after the symbol; a negative number leaves an empty part, which is no integer. */
  lemma OrderTail(m: Meta, nowMs: int)
    ensures var tail := Str(m.interval) + ['-'] + (Str(m.start) + ['-'] + (SideLetter(m.side) + ['-'] + Suffix(nowMs)));
      && (m.interval >= 0 && m.start >= 0 ==>
            Split(tail, '-') == [Str(m.interval), Str(m.start), SideLetter(m.side), Suffix(nowMs)])
      && (m.interval < 0 ==> Split(tail, '-')[0] == "")
      && (m.interval >= 0 && m.start < 0 ==> |Split(tail, '-')| >= 2 && Split(tail, '-')[1] == "")
  {
    hide Suffix, Padded, Dec, Str, Split;
    var c := SideLetter(m.side) + ['-'] + Suffix(nowMs);
    var b := Str(m.start) + ['-'] + c;
    var tail := Str(m.interval) + ['-'] + b;
    SuffixHasNoDash(nowMs);
    SplitNone(Suffix(nowMs), '-');
    SplitFirst(SideLetter(m.side), '-', Suffix(nowMs));
    StrHas(m.interval);
    StrHas(m.start);
    if m.interval < 0 {
      assert tail == "" + ['-'] + (Dec(-m.interval) + ['-'] + b);
      SplitFirst("", '-', Dec(-m.interval) + ['-'] + b);
    } else {
      SplitFirst(Str(m.interval), '-', b);
      if m.start < 0 {
        assert b == "" + ['-'] + (Dec(-m.start) + ['-'] + c);
        SplitFirst("", '-', Dec(-m.start) + ['-'] + c);
      } else {
        SplitFirst(Str(m.start), '-', c);
      }
    }
  }

  /**
    Parsing a printed order id gives back the zone exactly when the symbol is non-empty and free of
    dashes and both numbers are non-negative.
   */
  lemma OrderRoundTrip(m: Meta, nowMs: int)
    ensures ParseOrderId(OrderId(m, nowMs)) == Some(m) <==> Printable(m)
  {
    hide Suffix, Str, Dec, Padded, Split, ParseInt;
    var tail := Str(m.interval) + ['-'] + (Str(m.start) + ['-'] + (SideLetter(m.side) + ['-'] + Suffix(nowMs)));
    var s := OrderId(m, nowMs);
    assert s == ("zn" + m.symbol) + ['-'] + tail;
    assert "zn" <= s;
    OrderTail(m, nowMs);
    if '-' in m.symbol {
      PiecesAreFree(s, '-');
      assert Split(s, '-')[0] in Split(s, '-');
    } else {
      SplitFirst("zn" + m.symbol, '-', tail);
      assert ("zn" + m.symbol)[2..] == m.symbol;
      ParseStr(m.interval);
      ParseStr(m.start);
      EmptyIsNoInteger();
    }
  }

  lemma EmptyIsNoInteger()
    ensures ParseInt("") == None
  {
  }

  /**
    The triangle: going from the printed order id to the parent id gives the parent id printed directly,
    exactly for the zones whose order id parses back; and that parent id parses back to the zone exactly
    when its symbol has no bar.
   */
  lemma Triangle(box: BoxKey, default: Option<string>, nowMs: int)
    requires MetaOf(box, default).Some?
    ensures var m, order := MetaOf(box, default).value, PrintOrder(box, default, nowMs);
      && order.Some?
      && (ParentOfOrderId(order.value) == PrintParent(box, default) <==> Printable(m))
      && (Printable(m) && '|' !in m.symbol ==> ParseParentId(ParentOfOrderId(order.value).value) == Some(m))
  {
    hide ParseOrderId, OrderId, ParentId, ParseParentId;
    var m := MetaOf(box, default).value;
    OrderRoundTrip(m, nowMs);
    ParentRoundTrip(m);
    var n := ParseOrderId(OrderId(m, nowMs));
    if n.Some? && ParentId(n.value) == ParentId(m) {
      ParentIdentifies(n.value, m);
    }
  }

  /** Both printers refuse the same boxes: those without numbers or without a side. */
  lemma PrintersAgree(box: BoxKey, default: Option<string>, nowMs: int)
    ensures PrintParent(box, default).Some? <==> PrintOrder(box, default, nowMs).Some?
    ensures PrintParent(box, default).Some? <==>
      box.interval.Some? && box.start.Some? && box.side.Some? && Upper(box.side.value) in {"LONG", "SHORT"}
  {
  }

  /** Whatever text parses as an order id names a non-empty, dash-free symbol. */
  lemma ParsedSymbols(s: string)
    ensures ParseOrderId(s).Some? ==> ParseOrderId(s).value.symbol != "" && '-' !in ParseOrderId(s).value.symbol
    ensures ParseParentId(s).Some? ==> '|' !in ParseParentId(s).value.symbol
  {
    PiecesAreFree(s, '-');
    PiecesAreFree(s, '|');
    assert Split(s, '-')[0] in Split(s, '-');
  }

  /** An order id printed from a box reads back the box's own zone; the default stands in for a missing symbol. */
  lemma BoxReadsBack(box: BoxKey, default: Option<string>, nowMs: int)
    requires PrintOrder(box, default, nowMs).Some?
    ensures var symbol :=
        if box.symbol.Some? && box.symbol.value != "" then box.symbol.value
        else if default.Some? then default.value else "None";
      var side := if Upper(box.side.value) == "LONG" then LONG else SHORT;
      var m := Meta(symbol, box.interval.value, box.start.value, side);
      && (ParseOrderId(PrintOrder(box, default, nowMs).value) == Some(m) <==> Printable(m))
      && ('|' !in symbol ==> ParseParentId(PrintParent(box, default).value) == Some(m))
  {
    hide OrderId, ParentId, ParseOrderId, ParseParentId, Printable;
    PrintersAgree(box, default, nowMs);
    var m := MetaOf(box, default).value;
    OrderRoundTrip(m, nowMs);
    ParentRoundTrip(m);
  }

  // ----- The suffix of an order id -----

  lemma {:induction false} LeadingZero(s: string)
    requires forall c :: c in s ==> IsDigit(c)
    ensures DigitsValue("0" + s) == DigitsValue(s)
  {
    if s == "" {
      assert ("0" + s)[..0] == "";
    } else {
      assert s == s[..|s| - 1] + [s[|s| - 1]];
      LeadingZero(s[..|s| - 1]);
      assert ("0" + s)[..|s|] == "0" + s[..|s| - 1];
    }
  }

  lemma {:induction false} PaddedReads(s: string)
    requires forall c :: c in s ==> IsDigit(c)
    ensures forall c :: c in Padded(s) ==> IsDigit(c)
    ensures DigitsValue(Padded(s)) == DigitsValue(s)
    ensures |Padded(s)| == if |s| < 5 then 5 else |s|
    decreases 5 - |s|
  {
    if |s| < 5 {
      LeadingZero(s);
      PaddedReads("0" + s);
    }
  }

  lemma {:induction false} DecFits(n: nat, digits: nat, bound: nat)
    requires digits > 0 && n < bound && bound == Power10(digits)
    ensures |Dec(n)| <= digits
  {
    if n >= 10 {
      DecFits(n / 10, digits - 1, bound / 10);
    }
  }

  function Power10(k: nat): nat {
    if k == 0 then 1 else 10 * Power10(k - 1)
  }

  /** The suffix is the last five digits of the clock. */
  lemma SuffixReads(nowMs: int)
    ensures |Suffix(nowMs)| == 5 && (forall c :: c in Suffix(nowMs) ==> IsDigit(c))
    ensures DigitsValue(Suffix(nowMs)) == nowMs % 100000
  {
    assert Power10(5) == 100000;
    DecFits(nowMs % 100000, 5, 100000);
    hide DigitsValue, Dec, Padded;
    PaddedReads(Dec(nowMs % 100000));
    DigitsValueOfDec(nowMs % 100000);
  }

  /** Two order ids agree exactly when their zones do and their clocks differ by whole hundreds of seconds. */
  lemma OrdersAgreeIff(m: Meta, a: int, n: Meta, b: int)
    requires Printable(m) && Printable(n)
    ensures OrderId(m, a) == OrderId(n, b) <==> m == n && a % 100000 == b % 100000
  {
    hide ParseOrderId, Printable, Suffix, DigitsValue, Dec, Str;
    SuffixReads(a);
    SuffixReads(b);
    OrderRoundTrip(m, a);
    OrderRoundTrip(n, b);
    if OrderId(m, a) == OrderId(n, b) {
      assert m == n;
      var front := "zn" + m.symbol + "-" + Str(m.interval) + "-" + Str(m.start) + "-" + SideLetter(m.side);
      SuffixHasNoDash(a);
      SuffixHasNoDash(b);
      LastPieceForced(front, Suffix(a), front, Suffix(b), '-');
    }
    SameSuffix(a, b);
  }

  lemma SameSuffix(a: int, b: int)
    ensures a % 100000 == b % 100000 ==> Suffix(a) == Suffix(b)
  {
  }
}
