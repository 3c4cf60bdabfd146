/**
  The text operations that keys and payloads are built from: printing and parsing
  integers, splitting at a separator, and the ASCII part of upper, lower and strip.
 */
module PyText {
  import opened Options

  // ----- Integers as text -----

  function DigitChar(d: nat): char
    requires d < 10
  {
    ('0' as int + d) as char
  }

  predicate IsDigit(c: char) {
    '0' <= c <= '9'
  }

  function Dec(n: nat): (s: string)
    ensures s != "" && forall c :: c in s ==> IsDigit(c)
  {
    if n < 10 then [DigitChar(n)] else Dec(n / 10) + [DigitChar(n % 10)]
  }

  /** Python's str of an int. */
  function Str(n: int): (s: string)
    ensures s != ""
    ensures forall c :: c in s ==> IsDigit(c) || c == '-'
  {
    if n < 0 then "-" + Dec(-n) else Dec(n)
  }

  function DigitsValue(s: string): nat
    requires forall c :: c in s ==> IsDigit(c)
  {
    if s == "" then 0
    else
      assert IsDigit(s[|s| - 1]) by { assert s[|s| - 1] in s; }
      10 * DigitsValue(s[..|s| - 1]) + (s[|s| - 1] as int - '0' as int)
  }

  /** Python's int of a string: optional white space but no separators, an optional sign, then digits. */
  function ParseInt(text: string): Option<int> {
    var s := Strip(text);
    var negative := s != "" && s[0] == '-';
    var digits := if negative || (s != "" && s[0] == '+') then s[1..] else s;
    if digits == "" || (exists c :: c in text && IsSeparator(c)) || exists c :: c in digits && !IsDigit(c) then None
    else
      var magnitude: int := DigitsValue(digits);
      Some(if negative then -magnitude else magnitude)
  }

  lemma {:induction false} DigitsValueOfDec(n: nat)
    ensures DigitsValue(Dec(n)) == n
  {
    if n >= 10 {
      DigitsValueOfDec(n / 10);
      assert Dec(n)[..|Dec(n)| - 1] == Dec(n / 10);
    } else {
      assert Dec(n)[..|Dec(n)| - 1] == "";
    }
  }

  lemma ParseStr(n: int)
    ensures ParseInt(Str(n)) == Some(n)
  {
    hide ParseInt, DigitsValue, Dec;
    DigitsValueOfDec(if n < 0 then -n else n);
    ParseDigits(Dec(if n < 0 then -n else n), n < 0);
  }

  lemma ParseDigits(digits: string, negative: bool)
    requires digits != "" && forall c :: c in digits ==> IsDigit(c)
    ensures var magnitude: int := DigitsValue(digits);
      ParseInt(if negative then "-" + digits else digits) == Some(if negative then -magnitude else magnitude)
  {
    hide Strip, DigitsValue;
    var text := if negative then "-" + digits else digits;
    StripNothing(text);
    assert digits[0] in digits;
    assert negative ==> text[1..] == digits;
  }

  // ----- Case and white space -----

  /** The four ASCII separators, which strip removes and int does not. */
  predicate IsSeparator(c: char) {
    28 <= c as int <= 31
  }

  predicate IsSpace(c: char) {
    c == ' ' || '\t' <= c <= '\r' || IsSeparator(c)
  }

  function LowerChar(c: char): char {
    if 'A' <= c <= 'Z' then (c as int + 32) as char else c
  }

  function UpperChar(c: char): char {
    if 'a' <= c <= 'z' then (c as int - 32) as char else c
  }

  function Lower(s: string): string {
    seq(|s|, i requires 0 <= i < |s| => LowerChar(s[i]))
  }

  function Upper(s: string): string {
    seq(|s|, i requires 0 <= i < |s| => UpperChar(s[i]))
  }

  function LStrip(s: string): (r: string)
    ensures |r| <= |s|
    ensures forall c :: c in r ==> c in s
  {
    if s != "" && IsSpace(s[0]) then LStrip(s[1..]) else s
  }

  function RStrip(s: string): (r: string)
    ensures |r| <= |s|
    ensures forall c :: c in r ==> c in s
  {
    if s != "" && IsSpace(s[|s| - 1]) then RStrip(s[..|s| - 1]) else s
  }

  function Strip(s: string): string {
    RStrip(LStrip(s))
  }

  /** Text with nothing to strip at either end. */
  predicate Trim(s: string) {
    s == "" || (!IsSpace(s[0]) && !IsSpace(s[|s| - 1]))
  }

  lemma StripNothing(s: string)
    requires forall c :: c in s ==> !IsSpace(c)
    ensures Strip(s) == s
  {
    if s != "" {
      assert s[0] in s && s[|s| - 1] in s;
    }
  }

  lemma {:induction false} LStripFront(s: string)
    ensures LStrip(s) == "" || !IsSpace(LStrip(s)[0])
    ensures LStrip(s) == s <==> (s == "" || !IsSpace(s[0]))
  {
    if s != "" && IsSpace(s[0]) {
      LStripFront(s[1..]);
    }
  }

  lemma {:induction false} RStripEnds(s: string)
    ensures RStrip(s) == "" || (RStrip(s)[0] == s[0] && !IsSpace(RStrip(s)[|RStrip(s)| - 1]))
    ensures RStrip(s) == s <==> (s == "" || !IsSpace(s[|s| - 1]))
  {
    if s != "" && IsSpace(s[|s| - 1]) {
      RStripEnds(s[..|s| - 1]);
    }
  }

  lemma StripTrims(s: string)
    ensures Trim(Strip(s))
    ensures Strip(s) == s <==> Trim(s)
  {
    LStripFront(s);
    RStripEnds(LStrip(s));
    RStripEnds(s);
    if Strip(s) == s {
      assert |LStrip(s)| == |s|;
      LStripShorter(s);
    }
  }

  lemma {:induction false} LStripShorter(s: string)
    ensures |LStrip(s)| == |s| ==> LStrip(s) == s
  {
    if s != "" && IsSpace(s[0]) {
      LStripShorter(s[1..]);
    }
  }

  lemma LowerTwice(s: string)
    ensures Lower(Lower(s)) == Lower(s)
  {
  }

  lemma {:induction false} LStripOfConcat(s: string, t: string)
    requires s != "" && !IsSpace(s[|s| - 1])
    ensures LStrip(s + t) == LStrip(s) + t
    ensures LStrip(s) != "" && LStrip(s)[|LStrip(s)| - 1] == s[|s| - 1]
    decreases |s|
  {
    assert (s + t)[0] == s[0] && (s + t)[1..] == s[1..] + t;
    if IsSpace(s[0]) {
      LStripOfConcat(s[1..], t);
    }
  }

  /** Between two texts that do not end in white space nothing is stripped. */
  lemma StripOfConcat(s: string, t: string)
    requires s != "" && !IsSpace(s[|s| - 1]) && t != "" && !IsSpace(t[|t| - 1])
    ensures Strip(s + t) == Strip(s) + t
  {
    LStripOfConcat(s, t);
    assert (LStrip(s) + t)[|LStrip(s) + t| - 1] == t[|t| - 1];
  }

  /** Stripping upper-case text leaves upper-case text. */
  lemma UpperOfStrip(s: string)
    requires Upper(s) == s
    ensures Upper(Strip(s)) == Strip(s)
  {
    AllUpper(s);
    forall i | 0 <= i < |Strip(s)| ensures UpperChar(Strip(s)[i]) == Strip(s)[i] {
      assert Strip(s)[i] in LStrip(s);
    }
  }

  lemma AllUpper(s: string)
    requires Upper(s) == s
    ensures forall c :: c in s ==> UpperChar(c) == c
  {
    forall i | 0 <= i < |s| ensures UpperChar(s[i]) == s[i] {
      assert Upper(s)[i] == s[i];
    }
  }

  // ----- Splitting -----

  /** Python's s.split(c) for a one-character separator. */
  function Split(s: string, c: char): (parts: seq<string>)
    ensures parts != []
  {
    if s == "" then [""]
    else
      var rest := Split(s[1..], c);
      if s[0] == c then [""] + rest
      else [[s[0]] + rest[0]] + rest[1..]
  }

  lemma {:induction false} SplitNone(s: string, c: char)
    requires c !in s
    ensures Split(s, c) == [s]
  {
    if s != "" {
      SplitNone(s[1..], c);
      assert s == [s[0]] + s[1..];
    }
  }

  lemma {:induction false} SplitFirst(a: string, c: char, rest: string)
    requires c !in a
    ensures Split(a + [c] + rest, c) == [a] + Split(rest, c)
  {
    var s := a + [c] + rest;
    if a == "" {
      assert s[1..] == rest;
    } else {
      SplitFirst(a[1..], c, rest);
      assert s[1..] == a[1..] + [c] + rest;
      assert [a[0]] + a[1..] == a;
    }
  }

  lemma {:induction false} PiecesAreFree(s: string, c: char)
    ensures forall p :: p in Split(s, c) ==> c !in p
  {
    if s != "" {
      PiecesAreFree(s[1..], c);
    }
  }

  function CountOf(s: string, c: char): nat {
    if s == "" then 0 else (if s[0] == c then 1 else 0) + CountOf(s[1..], c)
  }

  lemma {:induction false} SplitCount(s: string, c: char)
    ensures |Split(s, c)| == CountOf(s, c) + 1
    ensures CountOf(s, c) > 0 <==> c in s
  {
    if s != "" {
      SplitCount(s[1..], c);
      assert s == [s[0]] + s[1..];
    }
  }

  lemma {:induction false} CountOfConcat(a: string, b: string, c: char)
    ensures CountOf(a + b, c) == CountOf(a, c) + CountOf(b, c)
  {
    if a == "" {
      assert a + b == b;
    } else {
      CountOfConcat(a[1..], b, c);
      assert (a + b)[1..] == a[1..] + b;
    }
  }

  lemma {:induction false} SplitLast(x: string, c: char, a: string)
    requires c !in a
    ensures Split(x + [c] + a, c) == Split(x, c) + [a]
  {
    var s := x + [c] + a;
    if x == "" {
      assert s[1..] == a;
      SplitNone(a, c);
    } else {
      assert s[1..] == x[1..] + [c] + a;
      SplitLast(x[1..], c, a);
    }
  }

  /** The text before the first separator can be read off. */
  lemma FirstPieceForced(a: string, x: string, b: string, y: string, c: char)
    requires c !in a && c !in b
    requires a + [c] + x == b + [c] + y
    ensures a == b && x == y
  {
    var s := a + [c] + x;
    SplitFirst(a, c, x);
    SplitFirst(b, c, y);
    assert a == Split(s, c)[0] == b;
    assert x == s[|a| + 1..] == y;
  }

  /** So can the text after the last separator. */
  lemma LastPieceForced(x: string, a: string, y: string, b: string, c: char)
    requires c !in a && c !in b
    requires x + [c] + a == y + [c] + b
    ensures a == b && x == y
  {
    var s := x + [c] + a;
    SplitLast(x, c, a);
    SplitLast(y, c, b);
    assert a == Split(s, c)[|Split(s, c)| - 1] == b;
    assert x == s[..|s| - |a| - 1] == y;
  }
}
