/** Record positions: the sixteen hexadecimal digits that carry a list index,
    the order of positioned records, and sorting by it. */
module Positions {
  import opened Wrappers
  import opened Widths

  predicate IsHex(c: char) {
    '0' <= c <= '9' || 'a' <= c <= 'f' || 'A' <= c <= 'F'
  }

  function HexValue(c: char): (v: nat)
    requires IsHex(c)
    ensures v < 16
  {
    if c <= '9' then c as int - '0' as int
    else if c <= 'F' then c as int - 'A' as int + 10
    else c as int - 'a' as int + 10
  }

  function HexDigit(v: nat): (c: char)
    requires v < 16
    ensures IsHex(c) && !IsUpper(c) && HexValue(c) == v
  {
    if v < 10 then ('0' as int + v) as char else ('a' as int + v - 10) as char
  }

  predicate AllHex(s: string) {
    forall i :: 0 <= i < |s| ==> IsHex(s[i])
  }

  function Parse(s: string): nat
    requires AllHex(s)
  {
    if s == "" then 0 else 16 * Parse(s[..|s| - 1]) + HexValue(s[|s| - 1])
  }

  function Digits(n: nat, width: nat): string {
    if width == 0 then "" else Digits(n / 16, width - 1) + [HexDigit(n % 16)]
  }

  function Pow16(width: nat): nat {
    if width == 0 then 1 else 16 * Pow16(width - 1)
  }

  predicate ValidPosition(p: string) {
    |p| == 16 && AllHex(p)
  }

  function PositionForIndex(n: nat): string {
    Digits(n, 16)
  }

  // The index of a position, or none where the source returns an error.
  function IndexFromPosition(p: string): Option<nat> {
    if ValidPosition(p) then Some(Parse(p)) else None
  }

  predicate IsUpper(c: char) {
    'A' <= c <= 'F'
  }

  predicate NoUpper(p: string) {
    forall i :: 0 <= i < |p| ==> !IsUpper(p[i])
  }

  function LowerChar(c: char): char
    requires IsHex(c)
  {
    HexDigit(HexValue(c))
  }

  function Lower(p: string): string
    requires AllHex(p)
  {
    seq(|p|, i requires 0 <= i < |p| => LowerChar(p[i]))
  }

  lemma {:induction false} ParseDigits(n: nat, width: nat)
    requires n < Pow16(width)
    ensures |Digits(n, width)| == width && AllHex(Digits(n, width)) && NoUpper(Digits(n, width))
    ensures Parse(Digits(n, width)) == n
  {
    if width > 0 {
      ParseDigits(n / 16, width - 1);
      assert Digits(n, width)[..width - 1] == Digits(n / 16, width - 1);
    }
  }

  lemma {:induction false} DigitsParse(s: string)
    requires AllHex(s)
    ensures Parse(s) < Pow16(|s|) && Digits(Parse(s), |s|) == Lower(s)
  {
    if s != "" {
      var init := s[..|s| - 1];
      DigitsParse(init);
      assert Parse(s) / 16 == Parse(init) && Parse(s) % 16 == HexValue(s[|s| - 1]);
      assert Lower(s) == Lower(init) + [LowerChar(s[|s| - 1])];
    }
  }

  lemma Pow16Of16()
    ensures Pow16(16) == TWO_TO_THE_64
  {
    assert Pow16(4) == 0x1_0000;
    assert Pow16(8) == 0x1_0000_0000;
    assert Pow16(12) == 0x1_0000_0000_0000;
  }

  // Writing and reading a position are inverse on every 64-bit index, and up to
  // letter case on every position that can be read.
  lemma PositionRoundTrip(n: nat)
    requires n < TWO_TO_THE_64
    ensures IndexFromPosition(PositionForIndex(n)) == Some(n) && NoUpper(PositionForIndex(n))
  {
    Pow16Of16();
    ParseDigits(n, 16);
  }

  lemma IndexRoundTrip(p: string)
    requires ValidPosition(p)
    ensures IndexFromPosition(p).value < TWO_TO_THE_64 && PositionForIndex(IndexFromPosition(p).value) == Lower(p)
    ensures PositionForIndex(IndexFromPosition(p).value) == p <==> NoUpper(p)
  {
    Pow16Of16();
    DigitsParse(p);
    assert forall i :: 0 <= i < |p| ==> (LowerChar(p[i]) == p[i] <==> !IsUpper(p[i]));
    assert |Lower(p)| == |p| && forall i :: 0 <= i < |p| ==> Lower(p)[i] == LowerChar(p[i]);
    if Lower(p) == p {
      assert forall i :: 0 <= i < |p| ==> Lower(p)[i] == p[i];
    }
  }

  // Go's string comparison.
  predicate Less(a: string, b: string)
    decreases |a|
  {
    b != "" && (a == "" || a[0] < b[0] || (a[0] == b[0] && Less(a[1..], b[1..])))
  }

  lemma {:induction false} LessTotal(a: string, b: string)
    ensures !(Less(a, b) && Less(b, a)) && (Less(a, b) || Less(b, a) || a == b) && !Less(a, a)
    decreases |a|
  {
    if a != "" && b != "" {
      LessTotal(a[1..], b[1..]);
      assert a == [a[0]] + a[1..] && b == [b[0]] + b[1..];
    } else if a != "" {
      LessTotal(a[1..], a[1..]);
    }
  }

  lemma {:induction false} LessTransitive(a: string, b: string, c: string)
    requires Less(a, b) && Less(b, c)
    ensures Less(a, c)
    decreases |a|
  {
    if a != "" && a[0] == b[0] == c[0] {
      LessTransitive(a[1..], b[1..], c[1..]);
    }
  }

  predicate OrderedBefore(lp: string, lid: string, rp: string, rid: string) {
    var left, right := IndexFromPosition(lp), IndexFromPosition(rp);
    if left.None? || right.None? then Less(lp, rp) || (lp == rp && Less(lid, rid))
    else left.value < right.value || (left.value == right.value && Less(lid, rid))
  }

  // A list of records comes with positions that are all readable, as opening a
  // record checks.
  lemma OrderedBeforeTotal(lp: string, lid: string, rp: string, rid: string)
    requires ValidPosition(lp) && ValidPosition(rp)
    ensures !(OrderedBefore(lp, lid, rp, rid) && OrderedBefore(rp, rid, lp, lid)) && !OrderedBefore(lp, lid, lp, lid)
    ensures lid != rid ==> OrderedBefore(lp, lid, rp, rid) || OrderedBefore(rp, rid, lp, lid)
  {
    LessTotal(lid, rid);
    LessTotal(lid, lid);
  }

  lemma OrderedBeforeTransitive(p1: string, id1: string, p2: string, id2: string, p3: string, id3: string)
    requires ValidPosition(p1) && ValidPosition(p2) && ValidPosition(p3)
    requires OrderedBefore(p1, id1, p2, id2) && OrderedBefore(p2, id2, p3, id3)
    ensures OrderedBefore(p1, id1, p3, id3)
  {
    if Less(id1, id2) && Less(id2, id3) {
      LessTransitive(id1, id2, id3);
    }
  }

  // Mixing readable and unreadable positions breaks transitivity as soon as a
  // readable one is written with a capital: 11, an unreadable one, 10, 11.
  lemma MixedPositionsCycle()
    ensures exists p1, p2, p3 :: (
      && ValidPosition(p1) && !ValidPosition(p2) && ValidPosition(p3)
      && OrderedBefore(p1, "a", p2, "b") && OrderedBefore(p2, "b", p3, "c") && OrderedBefore(p3, "c", p1, "a"))
  {
    var zeros := "000000000000000";
    var p1, p2, p3 := zeros + "B", zeros + "_", zeros + "a";
    CommonPrefix(zeros, "B", "_");
    CommonPrefix(zeros, "_", "a");
    assert p1[..15] == zeros && p3[..15] == zeros;
    assert Parse(p1) == 16 * Parse(zeros) + 11 && Parse(p3) == 16 * Parse(zeros) + 10;
    assert !IsHex(p2[15]);
    assert OrderedBefore(p1, "a", p2, "b") && OrderedBefore(p2, "b", p3, "c") && OrderedBefore(p3, "c", p1, "a");
  }

  lemma {:induction false} CommonPrefix(prefix: string, a: string, b: string)
    ensures Less(prefix + a, prefix + b) <==> Less(a, b)
  {
    if prefix == "" {
      assert "" + a == a && "" + b == b;
    } else {
      CommonPrefix(prefix[1..], a, b);
      assert (prefix + a)[1..] == prefix[1..] + a && (prefix + b)[1..] == prefix[1..] + b;
    }
  }

  // Without capitals the numeric order is the string order, so readable and
  // unreadable positions mix.
  lemma {:induction false} LowercaseOrder(a: string, b: string)
    requires |a| == |b| && AllHex(a) && AllHex(b) && NoUpper(a) && NoUpper(b)
    ensures Parse(a) < Parse(b) <==> Less(a, b)
    ensures Parse(a) == Parse(b) <==> a == b
  {
    if a != "" {
      var x, y := a[..|a| - 1], b[..|b| - 1];
      LowercaseOrder(x, y);
      LessAtLast(x, a[|a| - 1], y, b[|b| - 1]);
      assert a == x + [a[|a| - 1]] && b == y + [b[|b| - 1]];
      assert HexValue(a[|a| - 1]) < HexValue(b[|b| - 1]) <==> a[|a| - 1] < b[|b| - 1];
    }
  }

  lemma {:induction false} LessAtLast(x: string, c: char, y: string, d: char)
    requires |x| == |y|
    ensures Less(x + [c], y + [d]) <==> Less(x, y) || (x == y && c < d)
  {
    if x != "" {
      LessAtLast(x[1..], c, y[1..], d);
      assert (x + [c])[1..] == x[1..] + [c] && (y + [d])[1..] == y[1..] + [d];
      assert x == [x[0]] + x[1..] && y == [y[0]] + y[1..];
    }
  }

  lemma LowercaseMixes(lp: string, lid: string, rp: string, rid: string)
    requires (ValidPosition(lp) ==> NoUpper(lp)) && (ValidPosition(rp) ==> NoUpper(rp))
    ensures OrderedBefore(lp, lid, rp, rid) <==> Less(lp, rp) || (lp == rp && Less(lid, rid))
  {
    if ValidPosition(lp) && ValidPosition(rp) {
      LowercaseOrder(lp, rp);
    }
  }

  // Whatever else is among them, positions written as PositionForIndex writes
  // them are put in one transitive order.
  lemma LowercaseTransitive(p1: string, id1: string, p2: string, id2: string, p3: string, id3: string)
    requires (ValidPosition(p1) ==> NoUpper(p1)) && (ValidPosition(p2) ==> NoUpper(p2)) && (ValidPosition(p3) ==> NoUpper(p3))
    requires OrderedBefore(p1, id1, p2, id2) && OrderedBefore(p2, id2, p3, id3)
    ensures OrderedBefore(p1, id1, p3, id3)
  {
    hide IndexFromPosition, ValidPosition, OrderedBefore;
    LowercaseMixes(p1, id1, p2, id2);
    LowercaseMixes(p2, id2, p3, id3);
    LowercaseMixes(p1, id1, p3, id3);
    if Less(p1, p2) && Less(p2, p3) {
      LessTransitive(p1, p2, p3);
    }
    if Less(id1, id2) && Less(id2, id3) {
      LessTransitive(id1, id2, id3);
    }
  }

  // Exactly when the order is transitive on a list of positions and IDs, readable
  // or not.

  datatype Place = Place(position: string, id: string)

  predicate PlacedBefore(a: Place, b: Place) {
    OrderedBefore(a.position, a.id, b.position, b.id)
  }

  predicate TransitiveOn(s: seq<Place>) {
    forall i, j, k :: 0 <= i < |s| && 0 <= j < |s| && 0 <= k < |s| && PlacedBefore(s[i], s[j]) && PlacedBefore(s[j], s[k]) ==>
      PlacedBefore(s[i], s[k])
  }

  // An unreadable position stands, as a string, between two readable ones whose
  // indexes are the other way around, or equal with the IDs not in order.
  predicate Straddled(a: Place, between: Place, b: Place) {
    && ValidPosition(a.position) && !ValidPosition(between.position) && ValidPosition(b.position)
    && Less(a.position, between.position) && Less(between.position, b.position)
    && var x, y := Parse(a.position), Parse(b.position);
       y < x || (x == y && !Less(a.id, b.id))
  }

  lemma BrokenTriple(a: Place, b: Place, c: Place)
    requires PlacedBefore(a, b) && PlacedBefore(b, c) && !PlacedBefore(a, c)
    ensures Straddled(a, b, c) || Straddled(b, c, a) || Straddled(c, a, b)
  {
    hide Less, Parse, ValidPosition;
    LessTotal(a.position, c.position);
    LessTotal(a.id, b.id);
    LessTotal(b.id, c.id);
    if Less(a.position, b.position) && Less(b.position, c.position) {
      LessTransitive(a.position, b.position, c.position);
    }
    if Less(a.id, b.id) && Less(b.id, c.id) {
      LessTransitive(a.id, b.id, c.id);
    }
  }

  lemma StraddleBreaks(a: Place, b: Place, c: Place)
    ensures Straddled(a, b, c) ==> PlacedBefore(a, b) && PlacedBefore(b, c) && !PlacedBefore(a, c)
  {
  }

  lemma TransitiveExactly(s: seq<Place>)
    ensures TransitiveOn(s) <==>
      forall i, j, k :: 0 <= i < |s| && 0 <= j < |s| && 0 <= k < |s| ==> !Straddled(s[i], s[j], s[k])
  {
    if TransitiveOn(s) {
      forall i, j, k | 0 <= i < |s| && 0 <= j < |s| && 0 <= k < |s|
        ensures !Straddled(s[i], s[j], s[k])
      {
        hide PlacedBefore, Straddled;
        StraddleBreaks(s[i], s[j], s[k]);
      }
    } else {
      hide PlacedBefore, Straddled;
      var i, j, k :| 0 <= i < |s| && 0 <= j < |s| && 0 <= k < |s|
        && PlacedBefore(s[i], s[j]) && PlacedBefore(s[j], s[k]) && !PlacedBefore(s[i], s[k]);
      BrokenTriple(s[i], s[j], s[k]);
    }
  }
}
