// The position guards that stand before every order, and the broker-comment
// tags they read.
module StrategySlots {
  import opened Options
  import opened Market

  const COMMENT_LIMIT := 32
  const ACTIVE_CODE := "XVTB"

  /** An open position as the broker reports it; None is an unreadable side. */
  datatype Position = Position(ticket: string, direction: Option<Direction>, comment: string)

  // ------------------------------------------------------ one-way guard

  datatype OneWay =
    | OneWayOk
    | InvalidCandidate
    | OppositeOpen(ticket: string)
    | UnknownSides(count: nat)

  /** Every open position is known to face `d`. */
  predicate AllFacing(positions: seq<Position>, d: Direction) {
    forall p <- positions :: p.direction == Some(d)
  }

  function UnknownCount(positions: seq<Position>): nat {
    if positions == [] then 0
    else UnknownCount(positions[..|positions| - 1]) + if positions[|positions| - 1].direction.None? then 1 else 0
  }

  /** The count is the number of positions whose side cannot be read. */
  lemma {:induction false} UnknownCountIs(positions: seq<Position>)
    ensures UnknownCount(positions) == |set i | 0 <= i < |positions| && positions[i].direction.None?|
  {
    if positions != [] {
      var last := |positions| - 1;
      var init := positions[..last];
      UnknownCountIs(init);
      var before := set i | 0 <= i < |init| && init[i].direction.None?;
      var after := set i | 0 <= i < |positions| && positions[i].direction.None?;
      assert after == if positions[last].direction.None? then before + {last} else before;
    }
  }

  lemma {:induction false} NoUnknownIff(positions: seq<Position>)
    ensures UnknownCount(positions) == 0 <==> forall p <- positions :: p.direction.Some?
  {
    if positions != [] {
      var init := positions[..|positions| - 1];
      NoUnknownIff(init);
      assert positions == init + [positions[|positions| - 1]];
    }
  }

  /** `ticket` is the first open position facing `d`. */
  predicate IsFirstFacing(positions: seq<Position>, d: Direction, ticket: string) {
    exists i :: (&& 0 <= i < |positions| && positions[i].direction == Some(d) && positions[i].ticket == ticket
                 && forall j :: 0 <= j < i ==> positions[j].direction != Some(d))
  }

  /**
   * Allows a candidate exactly when hedging is on or every open position
   * faces the same way; a refusal names the first opposite ticket, or else
   * how many sides are unreadable.
   */
  method OneWayEntryAllowed(positions: seq<Position>, candidate: Option<Direction>, allowHedged: bool)
    returns (r: OneWay)
    ensures r.OneWayOk? <==> allowHedged || (candidate.Some? && AllFacing(positions, candidate.value))
    ensures r.InvalidCandidate? <==> !allowHedged && candidate.None?
    ensures r.OppositeOpen? ==> candidate.Some? && IsFirstFacing(positions, Opposite(candidate.value), r.ticket)
    ensures r.UnknownSides? ==> candidate.Some? && r.count == UnknownCount(positions) > 0
    ensures r.UnknownSides? ==> forall p <- positions :: p.direction != Some(Opposite(candidate.value))
  {
    if allowHedged {
      return OneWayOk;
    }
    if candidate.None? {
      return InvalidCandidate;
    }
    var opposite := Some(Opposite(candidate.value));
    var unknown := 0;
    for i := 0 to |positions|
      invariant forall j :: 0 <= j < i ==> positions[j].direction != opposite
      invariant unknown == UnknownCount(positions[..i])
    {
      var p := positions[i];
      assert positions[..i + 1][..i] == positions[..i];
      if p.direction == opposite {
        assert p in positions;
        return OppositeOpen(p.ticket);
      }
      if p.direction.None? {
        unknown := unknown + 1;
      }
    }
    assert positions[..|positions|] == positions;
    NoUnknownIff(positions);
    forall p <- positions ensures p.direction.None? || p.direction == candidate {
      var j :| 0 <= j < |positions| && positions[j] == p;
      assert p.direction.Some? ==> p.direction.value.Buy? || p.direction.value.Sell?;
    }
    r := if unknown > 0 then UnknownSides(unknown) else OneWayOk;
  }

  // -------------------------------------------------------- slot capacity

  datatype Availability = Available | MaximumReached | NoActiveSlot | LegacyPosition

  /** Room for one more, the decision owns the active slot, and every open position is its own. */
  function AvailableForStrategySlots(positions: seq<Position>, activeSlot: bool, maxOpen: nat): (r: Availability)
    ensures r.Available? <==> |positions| < maxOpen && activeSlot && forall p <- positions :: IsActive(p.comment)
    ensures r.LegacyPosition? ==> exists p <- positions :: !IsActive(p.comment)
  {
    if |positions| >= maxOpen then MaximumReached
    else if !activeSlot then NoActiveSlot
    else if exists p <- positions :: !IsActive(p.comment) then LegacyPosition
    else Available
  }

  // --------------------------------------------------------- comment tags

  predicate InClass(c: char) {
    'A' <= c <= 'Z' || c == ','
  }

  /** The longest run of code characters from `i`. */
  function CodeEnd(s: string, i: nat): (e: nat)
    requires i <= |s|
    ensures i <= e <= |s|
    ensures forall k :: i <= k < e ==> InClass(s[k])
    ensures e < |s| ==> !InClass(s[e])
    decreases |s| - i
  {
    if i < |s| && InClass(s[i]) then CodeEnd(s, i + 1) else i
  }

  /** The codes of a slot tag whose `S=` stands at `i`. */
  function TagAt(s: string, i: nat): Option<string>
  {
    if i + 2 <= |s| && s[i] == 'S' && s[i + 1] == '=' then
      var e := CodeEnd(s, i + 2);
      if e > i + 2 && (e == |s| || s[e] == '|') then Some(s[i + 2..e]) else None
    else None
  }

  /** A slot tag begins the comment or follows a bar. */
  function MatchAt(s: string, i: nat): Option<string> {
    if i == 0 && TagAt(s, 0).Some? then TagAt(s, 0)
    else if i < |s| && s[i] == '|' then TagAt(s, i + 1)
    else None
  }

  function SearchTag(s: string, i: nat): Option<string>
    decreases |s| - i
  {
    if i >= |s| then None
    else if MatchAt(s, i).Some? then MatchAt(s, i)
    else SearchTag(s, i + 1)
  }

  /** The position carries the current strategy's exact tag. */
  predicate IsActive(comment: string) {
    SearchTag(comment, 0) == Some(ACTIVE_CODE)
  }

  /** A slot tag of `code` stands at `b`: at the start or after a bar, up to a bar or the end. */
  predicate Stands(s: string, b: nat, code: string) {
    var e := b + 2 + |code|;
    && e <= |s| && (b == 0 || s[b - 1] == '|') && s[b..b + 2] == "S=" && s[b + 2..e] == code
    && code != "" && (forall c <- code :: 'A' <= c <= 'Z' || c == ',') && (e == |s| || s[e] == '|')
  }

  lemma TagAtIff(s: string, b: nat, code: string)
    requires b == 0 || (b <= |s| && s[b - 1] == '|')
    ensures TagAt(s, b) == Some(code) <==> Stands(s, b, code)
  {
    if Stands(s, b, code) {
      var e := b + 2 + |code|;
      assert s[b] == s[b..b + 2][0] && s[b + 1] == s[b..b + 2][1];
      forall k | b + 2 <= k < e ensures InClass(s[k]) {
        assert s[k] == s[b + 2..e][k - b - 2] && s[k] in code;
      }
      CodeEndAt(s, b + 2, e);
    } else if b + 2 <= |s| && s[b] == 'S' && s[b + 1] == '=' {
      assert s[b..b + 2] == "S=";
      var e := CodeEnd(s, b + 2);
      forall c | c in s[b + 2..e] ensures InClass(c) {
        var k :| 0 <= k < |s[b + 2..e]| && s[b + 2..e][k] == c;
        assert s[b + 2 + k] == c;
      }
    }
  }

  /** Where a search from `i` looks for a tag. */
  predicate LooksAt(s: string, i: nat, b: nat) {
    (i == b == 0 && s != "") || (i < b <= |s| && s[b - 1] == '|')
  }

  lemma {:induction false} SearchIsFirst(s: string, i: nat)
    ensures SearchTag(s, i).None? ==> forall b :: LooksAt(s, i, b) ==> TagAt(s, b).None?
    ensures SearchTag(s, i).Some? ==>
              exists b :: LooksAt(s, i, b) && TagAt(s, b) == SearchTag(s, i)
                          && forall other :: LooksAt(s, i, other) && other < b ==> TagAt(s, other).None?
    decreases |s| - i
  {
    if i < |s| {
      SearchIsFirst(s, i + 1);
      assert forall b :: LooksAt(s, i, b) <==> LooksAt(s, i + 1, b) || (i == b == 0) || (b == i + 1 && s[i] == '|');
      if MatchAt(s, i).Some? {
        var b := if i == 0 && TagAt(s, 0).Some? then 0 else i + 1;
        assert LooksAt(s, i, b) && TagAt(s, b) == SearchTag(s, i);
      }
    }
  }

  /** A comment is the active strategy's exactly when its first slot tag holds the active code and nothing else. */
  lemma ActiveIff(comment: string)
    ensures IsActive(comment)
       <==> exists b: nat :: Stands(comment, b, ACTIVE_CODE)
                          && forall other: nat, code :: Stands(comment, other, code) ==> b <= other
  {
    SearchIsFirst(comment, 0);
    forall b: nat, code | LooksAt(comment, 0, b) ensures TagAt(comment, b) == Some(code) <==> Stands(comment, b, code) {
      TagAtIff(comment, b, code);
    }
    assert forall b: nat, code :: Stands(comment, b, code) ==> LooksAt(comment, 0, b);
  }

  function Take(s: string, n: nat): string {
    if |s| <= n then s else s[..n]
  }

  function StrategyOrderComment(base: string): string {
    Take(base + "|S=" + ACTIVE_CODE, COMMENT_LIMIT)
  }

  /** The candle tag: a marker and the digest of the signal id. */
  function SignalTag(digest: string): string {
    "|B=" + digest
  }

  function EntrySignalComment(base: string, digest: string): (c: string)
    ensures |digest| <= COMMENT_LIMIT - 3 ==> |c| <= COMMENT_LIMIT
    ensures |c| >= |SignalTag(digest)| && c[|c| - |SignalTag(digest)|..] == SignalTag(digest)
  {
    var tag := SignalTag(digest);
    Take(base, if |tag| <= COMMENT_LIMIT then COMMENT_LIMIT - |tag| else 0) + tag
  }

  /** A digest is ten hexadecimal characters. */
  predicate IsDigest(d: string) {
    |d| == 10 && forall c <- d :: '0' <= c <= '9' || 'a' <= c <= 'f'
  }

  predicate PlainBase(base: string) {
    (forall c <- base :: c != '|') && !("S=" <= base)
  }

  /** The comment an accepted order carries. */
  function OrderComment(base: string, digest: string): string {
    EntrySignalComment(StrategyOrderComment(base), digest)
  }

  /** Nothing from `i` up to `j` begins a tag. */
  lemma {:induction false} SearchSkips(s: string, i: nat, j: nat)
    requires i <= j <= |s|
    requires forall k :: i <= k < j ==> MatchAt(s, k).None?
    ensures SearchTag(s, i) == SearchTag(s, j)
    decreases j - i
  {
    if i < j {
      SearchSkips(s, i + 1, j);
    }
  }

  lemma {:induction false} CodeEndAt(s: string, i: nat, e: nat)
    requires i <= e <= |s| && (forall k :: i <= k < e ==> InClass(s[k])) && (e < |s| ==> !InClass(s[e]))
    ensures CodeEnd(s, i) == e
    decreases e - i
  {
    if i < e {
      CodeEndAt(s, i + 1, e);
    }
  }

  /** A whole tag after a plain prefix is found. */
  lemma WholeTagFound(s: string, b: nat)
    requires |s| >= b + 8 && TagAt(s, 0).None?
    requires forall k :: 0 <= k < b ==> s[k] != '|'
    requires s[b] == '|' && s[b + 1] == 'S' && s[b + 2] == '=' && s[b + 3..b + 7] == ACTIVE_CODE && s[b + 7] == '|'
    ensures IsActive(s)
  {
    assert forall k :: b + 3 <= k < b + 7 ==> s[k] == ACTIVE_CODE[k - b - 3];
    CodeEndAt(s, b + 3, b + 7);
    SearchSkips(s, 0, b);
  }

  /** With a bar at 19, a tag beginning after `b` is too short to be the active code. */
  lemma CutTagMissed(s: string, b: nat)
    requires |s| == 32 && 13 <= b <= 19 && TagAt(s, 0).None?
    requires forall k :: 0 <= k < |s| && k != b && k != 19 ==> s[k] != '|'
    requires s[19] == '|' && s[20] == 'B'
    ensures !IsActive(s)
  {
    SearchSkips(s, 0, b);
    assert TagAt(s, 20).None?;
    SearchSkips(s, 19, 32);
    if b < 19 {
      SearchSkips(s, b + 1, 19);
      if TagAt(s, b + 1).Some? {
        assert CodeEnd(s, b + 3) <= 19;
        assert |TagAt(s, b + 1).value| <= 3;
      }
    }
  }

  lemma OrderCommentShape(base: string, digest: string)
    requires IsDigest(digest)
    ensures OrderComment(base, digest) == Take(base + "|S=" + ACTIVE_CODE, 19) + "|B=" + digest
  {
    var full := base + "|S=" + ACTIVE_CODE;
    assert Take(Take(full, 32), 19) == Take(full, 19);
  }

  lemma PlainBaseHasNoLeadingTag(base: string, rest: string)
    requires PlainBase(base) && rest != [] && rest[0] == '|'
    ensures TagAt(base + rest, 0).None?
  {
    var s := base + rest;
    if |base| >= 2 {
      assert s[0] == base[0] && s[1] == base[1];
      assert base[..2] == [base[0], base[1]];
    }
  }

  lemma TailHasOneBar(digest: string)
    requires IsDigest(digest)
    ensures forall k :: 1 <= k < 13 ==> ("|B=" + digest)[k] != '|'
  {
    forall k | 3 <= k < 13 ensures ("|B=" + digest)[k] != '|' {
      assert ("|B=" + digest)[k] in digest;
    }
  }

  lemma ShortBaseRecognised(base: string, digest: string)
    requires IsDigest(digest) && PlainBase(base) && |base| <= 12
    ensures IsActive(OrderComment(base, digest))
  {
    ShortShape(base, digest);
    PlainBaseHasNoLeadingTag(base, "|S=" + ACTIVE_CODE + ("|B=" + digest));
    PlacedTag(base, "|B=" + digest);
    WholeTagFound(OrderComment(base, digest), |base|);
  }

  lemma ShortShape(base: string, digest: string)
    requires IsDigest(digest) && |base| <= 12
    ensures OrderComment(base, digest) == base + ("|S=" + ACTIVE_CODE + ("|B=" + digest))
  {
    OrderCommentShape(base, digest);
    assert Take(base + "|S=" + ACTIVE_CODE, 19) == base + ("|S=" + ACTIVE_CODE) by {
      Reassociate(base, "|S=", ACTIVE_CODE);
    }
    Reassociate(base, "|S=" + ACTIVE_CODE, "|B=" + digest);
  }

  lemma Reassociate(a: string, b: string, c: string)
    ensures a + b + c == a + (b + c)
  {
  }

  /** Where the characters of a tag put after `head` are found. */
  lemma PlacedTag(head: string, tail: string)
    requires (forall c <- head :: c != '|') && tail != [] && tail[0] == '|'
    ensures var s, b := head + ("|S=" + ACTIVE_CODE + tail), |head|;
      && (forall k :: 0 <= k < b ==> s[k] != '|')
      && s[b] == '|' && s[b + 1] == 'S' && s[b + 2] == '='
      && s[b + 3..b + 7] == ACTIVE_CODE && s[b + 7] == '|'
  {
    var s, b := head + ("|S=" + ACTIVE_CODE + tail), |head|;
    assert forall k :: 0 <= k < b ==> s[k] == head[k] && head[k] in head;
  }

  /** A bar opens `t` and no other character of it is one. */
  predicate BarFirst(t: string) {
    forall k :: 0 <= k < |t| ==> (t[k] == '|' <==> k == 0)
  }

  lemma CutTag(n: nat)
    requires n <= 6
    ensures BarFirst(Take("|S=" + ACTIVE_CODE, n)) && |Take("|S=" + ACTIVE_CODE, n)| == n
  {
  }

  lemma BarsOfParts(head: string, mid: string, tail: string)
    requires 13 <= |head| <= 19 && |mid| == 19 - |head| && |tail| == 13
    requires forall c <- head :: c != '|'
    requires BarFirst(mid) && BarFirst(tail) && tail[1] == 'B' && TagAt(head + (mid + tail), 0).None?
    ensures !IsActive(head + (mid + tail))
  {
    var s := head + (mid + tail);
    assert forall k :: 0 <= k < |head| ==> s[k] == head[k] && head[k] in head;
    assert forall k :: |head| <= k < 19 ==> s[k] == mid[k - |head|];
    assert forall k :: 19 <= k < 32 ==> s[k] == tail[k - 19];
    CutTagMissed(s, |head|);
  }

  lemma TakeConcat(a: string, b: string, n: nat)
    requires |a| + |b| >= n
    ensures Take(a + b, n) == Take(a, n) + Take(b, n - |Take(a, n)|)
  {
  }

  lemma LongShape(base: string, digest: string)
    requires IsDigest(digest) && |base| > 12
    ensures var head := Take(base, 19);
      OrderComment(base, digest) == head + (Take("|S=" + ACTIVE_CODE, 19 - |head|) + ("|B=" + digest))
  {
    var slot := "|S=" + ACTIVE_CODE;
    OrderCommentShape(base, digest);
    assert base + "|S=" + ACTIVE_CODE == base + slot;
    TakeConcat(base, slot, 19);
  }

  lemma LongBaseMissed(base: string, digest: string)
    requires IsDigest(digest) && PlainBase(base) && |base| > 12
    ensures !IsActive(OrderComment(base, digest))
  {
    var head, tail := Take(base, 19), "|B=" + digest;
    var mid := Take("|S=" + ACTIVE_CODE, 19 - |head|);
    LongShape(base, digest);
    CutTag(19 - |head|);
    TailHasOneBar(digest);
    HeadIsPlain(base);
    assert (mid + tail)[0] == '|';
    PlainBaseHasNoLeadingTag(head, mid + tail);
    BarsOfParts(head, mid, tail);
  }

  lemma HeadIsPlain(base: string)
    requires PlainBase(base) && |base| > 12
    ensures PlainBase(Take(base, 19))
  {
    var head := Take(base, 19);
    assert forall c <- head :: c in base;
    assert head[..2] == base[..2];
  }

  /**
   * The engine recognises its own positions exactly when the configured base
   * comment leaves room for the whole slot tag: at most twelve characters.
   */
  lemma OwnOrderRecognisedIff(base: string, digest: string)
    requires IsDigest(digest) && PlainBase(base)
    ensures IsActive(OrderComment(base, digest)) <==> |base| <= 12
  {
    if |base| <= 12 {
      ShortBaseRecognised(base, digest);
    } else {
      LongBaseMissed(base, digest);
    }
  }
}
