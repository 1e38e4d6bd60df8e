// The identity of one closed-candle signal: timeframe aliases, time zones
// and the string every engine claims in the shared store.
module EntrySignal {
  import opened Options

  // --------------------------------------------------------- characters

  predicate IsDigit(c: char) {
    '0' <= c <= '9'
  }

  predicate IsUpper(c: char) {
    'A' <= c <= 'Z'
  }

  predicate IsLower(c: char) {
    'a' <= c <= 'z'
  }

  function LowerChar(c: char): char {
    if IsUpper(c) then c - 'A' + 'a' else c
  }

  function UpperChar(c: char): char {
    if IsLower(c) then c - 'a' + 'A' else c
  }

  function Lower(s: string): (r: string)
    ensures |r| == |s| && forall i :: 0 <= i < |s| ==> r[i] == LowerChar(s[i])
  {
    seq(|s|, i requires 0 <= i < |s| => LowerChar(s[i]))
  }

  function Upper(s: string): (r: string)
    ensures |r| == |s| && forall i :: 0 <= i < |s| ==> r[i] == UpperChar(s[i])
  {
    seq(|s|, i requires 0 <= i < |s| => UpperChar(s[i]))
  }

  predicate IsSpace(c: char) {
    c == ' ' || c == '\t' || c == '\n' || c == '\r'
  }

  function StripLeft(s: string): string {
    if s != "" && IsSpace(s[0]) then StripLeft(s[1..]) else s
  }

  function StripRight(s: string): string {
    if s != "" && IsSpace(s[|s| - 1]) then StripRight(s[..|s| - 1]) else s
  }

  function Strip(s: string): string {
    StripRight(StripLeft(s))
  }

  // ------------------------------------------------------------ numbers

  predicate Digits(s: string) {
    |s| > 0 && forall c <- s :: IsDigit(c)
  }

  function DigitValue(c: char): nat
    requires IsDigit(c)
  {
    (c - '0') as int
  }

  function Parse(s: string): nat
    requires forall c <- s :: IsDigit(c)
  {
    if s == "" then 0 else Parse(s[..|s| - 1]) * 10 + DigitValue(s[|s| - 1])
  }

  function DigitChar(n: nat): (c: char)
    requires n < 10
    ensures IsDigit(c) && DigitValue(c) == n
  {
    '0' + n as char
  }

  function Decimal(n: nat): (s: string)
    ensures Digits(s)
  {
    if n < 10 then [DigitChar(n)] else Decimal(n / 10) + [DigitChar(n % 10)]
  }

  lemma {:induction false} ParseDecimal(n: nat)
    ensures Parse(Decimal(n)) == n
  {
    var s := Decimal(n);
    if n >= 10 {
      ParseDecimal(n / 10);
      assert s[..|s| - 1] == Decimal(n / 10);
    } else {
      assert s[..0] == "";
    }
  }

  // --------------------------------------------------------- timeframes

  predicate UnitLetter(c: char) {
    LowerChar(c) in {'m', 'h', 'd'}
  }

  /** `M5`, `h1`: a unit letter, then digits. */
  predicate PrefixForm(v: string) {
    |v| >= 2 && UnitLetter(v[0]) && Digits(v[1..])
  }

  /** `5m`, `1H`: digits, then a unit letter. */
  predicate SuffixForm(v: string) {
    |v| >= 2 && UnitLetter(v[|v| - 1]) && Digits(v[..|v| - 1])
  }

  predicate Recognised(v: string) {
    PrefixForm(v) || SuffixForm(v)
  }

  function Count(v: string): nat
    requires Recognised(v)
  {
    if PrefixForm(v) then Parse(v[1..]) else Parse(v[..|v| - 1])
  }

  function Unit(v: string): char
    requires Recognised(v)
  {
    LowerChar(if PrefixForm(v) then v[0] else v[|v| - 1])
  }

  function CanonicalTimeframe(timeframe: string): string {
    var value := Strip(timeframe);
    if Recognised(value) then Decimal(Count(value)) + [Unit(value)] else Lower(value)
  }

  lemma StripDecided(v: string)
    requires v != "" && !IsSpace(v[0]) && !IsSpace(v[|v| - 1])
    ensures Strip(v) == v
  {
  }

  lemma RecognisedIsStripped(v: string)
    requires Recognised(v)
    ensures Strip(v) == v && v != ""
  {
    if PrefixForm(v) {
      assert v[|v| - 1] == v[1..][|v| - 2] && v[|v| - 1] in v[1..];
    } else {
      assert v[0] == v[..|v| - 1][0] && v[0] in v[..|v| - 1];
    }
  }

  /** Two recognised spellings share a candle exactly when number and unit agree: M5, m05 and 5M do. */
  lemma AliasIff(v: string, w: string)
    requires Recognised(v) && Recognised(w)
    ensures CanonicalTimeframe(v) == CanonicalTimeframe(w) <==> Count(v) == Count(w) && Unit(v) == Unit(w)
  {
    RecognisedIsStripped(v);
    RecognisedIsStripped(w);
    var a, b := Decimal(Count(v)) + [Unit(v)], Decimal(Count(w)) + [Unit(w)];
    if a == b {
      assert a[..|a| - 1] == Decimal(Count(v)) && b[..|b| - 1] == Decimal(Count(w));
      assert a[|a| - 1] == Unit(v) && b[|b| - 1] == Unit(w);
      ParseDecimal(Count(v));
      ParseDecimal(Count(w));
    }
  }

  /** Moving the unit letter from front to back, in either case, changes nothing. */
  lemma PrefixAndSuffixAgree(letter: char, other: char, digits: string)
    requires UnitLetter(letter) && Digits(digits) && LowerChar(other) == LowerChar(letter)
    ensures CanonicalTimeframe([letter] + digits) == CanonicalTimeframe(digits + [other])
  {
    var v, w := [letter] + digits, digits + [other];
    assert v[1..] == digits && w[..|w| - 1] == digits;
    assert !PrefixForm(w) by {
      assert w[0] == digits[0] && digits[0] in digits;
    }
    AliasIff(v, w);
  }

  /** Canonical names are fixed points, so a stored name never changes identity. */
  lemma CanonicalIsStable(timeframe: string)
    ensures CanonicalTimeframe(CanonicalTimeframe(timeframe)) == CanonicalTimeframe(timeframe)
  {
    var value := Strip(timeframe);
    var canon := CanonicalTimeframe(timeframe);
    if Recognised(value) {
      var n := Count(value);
      assert canon[..|canon| - 1] == Decimal(n) && canon[|canon| - 1] == Unit(value);
      assert !PrefixForm(canon) by {
        assert canon[0] == Decimal(n)[0] && canon[0] in Decimal(n);
      }
      ParseDecimal(n);
      RecognisedIsStripped(canon);
    } else {
      StripShape(timeframe);
      LowerKeepsForm(value);
      if value != "" {
        StripDecided(canon);
      }
      assert Lower(canon) == canon;
    }
  }

  lemma {:induction false} StripRightShape(s: string)
    ensures var r := StripRight(s); r <= s && (r != "" ==> !IsSpace(r[|r| - 1]))
  {
    if s != "" && IsSpace(s[|s| - 1]) {
      StripRightShape(s[..|s| - 1]);
    }
  }

  lemma {:induction false} StripLeftShape(s: string)
    ensures var r := StripLeft(s); r != "" ==> !IsSpace(r[0])
  {
    if s != "" && IsSpace(s[0]) {
      StripLeftShape(s[1..]);
    }
  }

  lemma StripShape(s: string)
    ensures var r := Strip(s); r != "" ==> !IsSpace(r[0]) && !IsSpace(r[|r| - 1])
  {
    StripLeftShape(s);
    StripRightShape(StripLeft(s));
  }

  lemma LowerKeepsForm(v: string)
    ensures Recognised(Lower(v)) <==> Recognised(v)
  {
    var w := Lower(v);
    assert forall c: char :: IsDigit(LowerChar(c)) <==> IsDigit(c);
    if |v| >= 2 {
      DigitsLower(v[1..], w[1..]);
      DigitsLower(v[..|v| - 1], w[..|w| - 1]);
    }
  }

  lemma DigitsLower(a: string, b: string)
    requires |a| == |b| && forall i :: 0 <= i < |a| ==> b[i] == LowerChar(a[i])
    ensures Digits(a) <==> Digits(b)
  {
    if Digits(a) {
      forall c <- b ensures IsDigit(c) {
        var i :| 0 <= i < |b| && b[i] == c;
        assert a[i] in a;
      }
    }
    if Digits(b) {
      forall c <- a ensures IsDigit(c) {
        var i :| 0 <= i < |a| && a[i] == c;
        assert b[i] in b;
      }
    }
  }

  // ------------------------------------------------------------- identity

  /** A candle timestamp: seconds on the local clock and, if aware, the zone's offset from UTC. */
  datatype BarTime = BarTime(local: int, offset: Option<int>)

  /** Seconds of the naive UTC timestamp the id is built from. */
  function UtcSeconds(t: BarTime): int {
    if t.offset.Some? then t.local - t.offset.value else t.local
  }

  /** An aware local time names the instant its zone's offset earlier; a naive one is UTC. */
  lemma OffsetIsRemoved(utc: int, offset: int)
    ensures UtcSeconds(BarTime(utc + offset, Some(offset))) == utc == UtcSeconds(BarTime(utc, None))
  {
  }

  /** How a timestamp is spelled: nineteen characters, one spelling per second. */
  ghost predicate IsoSpelling(iso: int -> string) {
    (forall t :: |iso(t)| == 19) && (forall t, u :: iso(t) == iso(u) ==> t == u)
  }

  function EntrySignalId(symbol: string, timeframe: string, bar: BarTime, iso: int -> string): string {
    Upper(Strip(symbol)) + "|" + CanonicalTimeframe(timeframe) + "|" + iso(UtcSeconds(bar))
  }

  /**
   * On one symbol, two entry calls share a signal id exactly when they name
   * the same candle: same canonical timeframe and same UTC second.
   */
  lemma SameIdIff(symbol: string, tf: string, bar: BarTime, tf': string, bar': BarTime, iso: int -> string)
    requires IsoSpelling(iso)
    ensures EntrySignalId(symbol, tf, bar, iso) == EntrySignalId(symbol, tf', bar', iso)
       <==> CanonicalTimeframe(tf) == CanonicalTimeframe(tf') && UtcSeconds(bar) == UtcSeconds(bar')
  {
    var head := Upper(Strip(symbol)) + "|";
    var c, c' := CanonicalTimeframe(tf), CanonicalTimeframe(tf');
    var t, t' := iso(UtcSeconds(bar)), iso(UtcSeconds(bar'));
    var a, b := EntrySignalId(symbol, tf, bar, iso), EntrySignalId(symbol, tf', bar', iso);
    assert a == head + c + "|" + t && b == head + c' + "|" + t';
    assert a[|a| - 19..] == t && b[|b| - 19..] == t';
    assert a[|head|..|a| - 20] == c && b[|head|..|b| - 20] == c';
  }
}
