/**
Every spelling that section 2.2 of RFC 4291 allows for an IPv6 address parses back to its eight groups, so that
classification depends on the address and not on how it is written.
*/
module Ipv6Spelling {
  import opened Wrappers
  import opened Numerals
  import opened EgressNet
  import Text

  // ----- spellings -----

  /** One colon-separated piece: up to four hexadecimal digits of either case, or a dotted-decimal tail. */
  datatype Part = Hex(text: string) | Quad(texts: seq<string>)

  /** `head` alone, or `head::tail` when `gap` holds. */
  datatype Spelling = Spelling(head: seq<Part>, gap: bool, tail: seq<Part>)

  predicate PartOk(p: Part) {
    match p
    case Hex(t) => IsNumeral(t, 16) && |t| <= 4
    case Quad(ts) => |ts| == 4 && forall i :: 0 <= i < 4 ==> IsNumeral(ts[i], 10) && |ts[i]| <= 3 && NumValue(ts[i], 10) <= 255
  }

  predicate AllOk(ps: seq<Part>) { forall i :: 0 <= i < |ps| ==> PartOk(ps[i]) }

  /** Every piece is fine, and only the very last one may be dotted. */
  predicate PartsOk(ps: seq<Part>, mayEndDotted: bool) {
    && AllOk(ps)
    && forall i :: 0 <= i < |ps| && ps[i].Quad? ==> mayEndDotted && i == |ps| - 1
  }

  predicate WellFormed(s: Spelling) {
    PartsOk(s.head, !s.gap) && PartsOk(s.tail, s.gap) && (!s.gap ==> s.tail == [])
  }

  function Octets(ts: seq<string>): seq<nat>
    requires |ts| == 4
  {
    [NumValue(ts[0], 10), NumValue(ts[1], 10), NumValue(ts[2], 10), NumValue(ts[3], 10)]
  }

  function PartGroups(p: Part): seq<nat>
    requires PartOk(p)
  {
    match p
    case Hex(t) => [NumValue(t, 16)]
    case Quad(ts) => var o := Octets(ts); [o[0] * 256 + o[1], o[2] * 256 + o[3]]
  }

  function AllGroups(ps: seq<Part>): seq<nat>
    requires AllOk(ps)
  {
    if ps == [] then [] else PartGroups(ps[0]) + AllGroups(ps[1..])
  }

  function ZeroGroups(n: nat): seq<nat> { seq(n, i => 0) }

  /** The spelling denotes the address: `::` stands for one or more zero groups. */
  predicate Spells(s: Spelling, g: seq<nat>) {
    && WellFormed(s) && |g| == 8
    && if !s.gap then AllGroups(s.head) == g
       else var written := |AllGroups(s.head)| + |AllGroups(s.tail)|;
            written <= 7 && AllGroups(s.head) + ZeroGroups(8 - written) + AllGroups(s.tail) == g
  }

  function PartText(p: Part): string {
    match p case Hex(t) => t case Quad(ts) => Text.Join(ts, '.')
  }

  function Texts(ps: seq<Part>): seq<string> { seq(|ps|, i requires 0 <= i < |ps| => PartText(ps[i])) }

  function Write(ps: seq<Part>): string { Text.Join(Texts(ps), ':') }

  function Spelled(s: Spelling): string {
    if s.gap then Write(s.head) + "::" + Write(s.tail) else Write(s.head)
  }

  // ----- the characters of a spelling -----

  predicate AddressChar(c: char) { DigitValue(c) < 16 || c == ':' || c == '.' }

  predicate AddressText(s: string) { forall i :: 0 <= i < |s| ==> AddressChar(s[i]) }

  lemma {:induction false} JoinKeepsChars(parts: seq<string>, sep: char)
    requires AddressChar(sep) && forall i :: 0 <= i < |parts| ==> AddressText(parts[i])
    ensures AddressText(Text.Join(parts, sep))
  {
    if |parts| > 1 {
      JoinKeepsChars(parts[1..], sep);
    }
  }

  lemma {:induction false} JoinEnds(parts: seq<string>, sep: char)
    requires parts != [] && forall i :: 0 <= i < |parts| ==> parts[i] != []
    ensures var r := Text.Join(parts, sep);
            && r != [] && r[0] == parts[0][0]
            && r[|r| - 1] == parts[|parts| - 1][|parts[|parts| - 1]| - 1]
  {
    if |parts| > 1 { JoinEnds(parts[1..], sep); }
  }

  lemma PartTextShape(p: Part)
    requires PartOk(p)
    ensures var t := PartText(p);
            t != [] && AddressText(t) && DigitValue(t[0]) < 16 && DigitValue(t[|t| - 1]) < 16 && ':' !in t
            && (p.Hex? ==> '.' !in t)
  {
    if p.Quad? {
      JoinKeepsChars(p.texts, '.');
      JoinEnds(p.texts, '.');
      QuadHasNoColon(p.texts);
    }
  }

  lemma {:induction false} QuadHasNoColon(ts: seq<string>)
    requires forall i :: 0 <= i < |ts| ==> IsNumeral(ts[i], 10)
    ensures ':' !in Text.Join(ts, '.')
  {
    if |ts| > 1 { QuadHasNoColon(ts[1..]); }
  }

  lemma WriteShape(ps: seq<Part>)
    requires AllOk(ps)
    ensures AddressText(Write(ps))
    ensures forall i :: 0 <= i < |ps| ==> Texts(ps)[i] != [] && ':' !in Texts(ps)[i]
    ensures ps != [] ==> Write(ps) != [] && DigitValue(Write(ps)[0]) < 16 && DigitValue(Write(ps)[|Write(ps)| - 1]) < 16
    ensures ps == [] ==> Write(ps) == []
  {
    hide PartOk, PartText, DigitValue;
    forall i | 0 <= i < |ps| ensures Texts(ps)[i] != [] && AddressText(Texts(ps)[i]) && ':' !in Texts(ps)[i] {
      PartTextShape(ps[i]);
    }
    JoinKeepsChars(Texts(ps), ':');
    if ps != [] {
      JoinEnds(Texts(ps), ':');
      PartTextShape(ps[0]);
      PartTextShape(ps[|ps| - 1]);
    }
  }

  // ----- normalisation only lowers the case -----

  function LowerPart(p: Part): Part { match p case Hex(t) => Hex(Lower(t)) case Quad(ts) => Quad(ts) }

  function LowerParts(ps: seq<Part>): seq<Part> { seq(|ps|, i requires 0 <= i < |ps| => LowerPart(ps[i])) }

  lemma {:induction false} LowerJoin(parts: seq<string>, lowered: seq<string>, sep: char)
    requires |lowered| == |parts| && LowerChar(sep) == sep && forall i :: 0 <= i < |parts| ==> lowered[i] == Lower(parts[i])
    ensures Lower(Text.Join(parts, sep)) == Text.Join(lowered, sep)
  {
    if |parts| > 1 {
      LowerJoin(parts[1..], lowered[1..], sep);
      LowerConcat(parts[0] + [sep], Text.Join(parts[1..], sep));
      LowerConcat(parts[0], [sep]);
    }
  }

  lemma LowerPartText(p: Part)
    requires PartOk(p)
    ensures Lower(PartText(p)) == PartText(LowerPart(p)) && PartOk(LowerPart(p))
    ensures PartGroups(LowerPart(p)) == PartGroups(p)
  {
    match p
    case Hex(t) => ValueIgnoresCase(t, 16);
    case Quad(ts) =>
      forall i | 0 <= i < |ts| ensures Lower(ts[i]) == ts[i] {
        assert IsNumeral(ts[i], 10);
      }
      LowerJoin(ts, ts, '.');
  }

  lemma {:induction false} LowerWrite(ps: seq<Part>)
    requires AllOk(ps)
    ensures Lower(Write(ps)) == Write(LowerParts(ps))
    ensures AllOk(LowerParts(ps))
    ensures AllGroups(LowerParts(ps)) == AllGroups(ps)
  {
    forall i | 0 <= i < |ps| ensures PartOk(LowerParts(ps)[i]) && Texts(LowerParts(ps))[i] == Lower(Texts(ps)[i]) {
      LowerPartText(ps[i]);
    }
    LowerJoin(Texts(ps), Texts(LowerParts(ps)), ':');
    LowerGroups(ps);
  }

  lemma {:induction false} LowerGroups(ps: seq<Part>)
    requires AllOk(ps)
    ensures AllOk(LowerParts(ps))
    ensures AllGroups(LowerParts(ps)) == AllGroups(ps)
  {
    if ps != [] {
      LowerPartText(ps[0]);
      LowerGroups(ps[1..]);
      assert LowerParts(ps)[1..] == LowerParts(ps[1..]);
    }
  }

  lemma {:induction false} BeforeAbsent(s: string, c: char)
    requires c !in s
    ensures EgressNet.Before(s, c) == s
  {
    if s != [] { BeforeAbsent(s[1..], c); }
  }

  lemma NormalizeAddress(s: string)
    requires AddressText(s) && s != [] && s[|s| - 1] != '.'
    ensures NormalizeHost(s) == Lower(s)
  {
    assert AddressChar(s[0]) && AddressChar(s[|s| - 1]);
    Text.TrimmedIsFixed(s);
    var h := Lower(s);
    assert h[0] != '[' && h[|h| - 1] != '.';
    forall c | c in h ensures c != '%' {
      var i :| 0 <= i < |s| && c == LowerChar(s[i]);
      assert AddressChar(s[i]);
    }
    BeforeAbsent(h, '%');
  }

  function LowerSpelling(s: Spelling): Spelling { Spelling(LowerParts(s.head), s.gap, LowerParts(s.tail)) }

  lemma SpelledShape(s: Spelling)
    requires WellFormed(s) && (s.gap || s.head != [])
    ensures Spelled(s) != [] && AddressText(Spelled(s)) && Spelled(s)[|Spelled(s)| - 1] != '.'
    ensures DigitValue(Spelled(s)[|Spelled(s)| - 1]) < 16 || Spelled(s)[|Spelled(s)| - 1] == ':'
  {
    WriteShape(s.head);
    WriteShape(s.tail);
  }

  lemma LowerWellFormed(s: Spelling)
    requires WellFormed(s)
    ensures WellFormed(LowerSpelling(s))
    ensures AllGroups(LowerParts(s.head)) == AllGroups(s.head) && AllGroups(LowerParts(s.tail)) == AllGroups(s.tail)
  {
    LowerGroups(s.head);
    LowerGroups(s.tail);
  }

  lemma LowerSpelled(s: Spelling)
    requires WellFormed(s)
    ensures Lower(Spelled(s)) == Spelled(LowerSpelling(s))
  {
    LowerWrite(s.head);
    LowerWrite(s.tail);
    if s.gap {
      LowerConcat(Write(s.head) + "::", Write(s.tail));
      LowerConcat(Write(s.head), "::");
      assert Lower("::") == "::";
    }
  }

  lemma NormalizeSpelled(s: Spelling)
    requires WellFormed(s) && (s.gap || s.head != [])
    ensures NormalizeHost(Spelled(s)) == Spelled(LowerSpelling(s))
  {
    SpelledShape(s);
    NormalizeAddress(Spelled(s));
    LowerSpelled(s);
  }

  // ----- the dotted tail -----

  lemma {:induction false} SplitCovers(t: string, sep: char)
    ensures forall c <- t :: c == sep || exists p <- Text.Split(t, sep) :: c in p
  {
    if t != [] {
      SplitCovers(t[1..], sep);
      var rest := Text.Split(t[1..], sep);
      forall c | c in t && c != sep ensures exists p <- Text.Split(t, sep) :: c in p {
        if c in t[1..] {
          var p :| p in rest && c in p;
          if p == rest[0] {
            var first := Text.Split(t, sep)[if t[0] == sep then 1 else 0];
            assert c in first && first in Text.Split(t, sep);
          } else {
            assert p in Text.Split(t, sep);
          }
        } else {
          assert c == t[0] && c in Text.Split(t, sep)[0];
        }
      }
    }
  }

  lemma QuadsHaveNoColon(t: string)
    requires IsDottedQuad(t)
    ensures ':' !in t
  {
    SplitCovers(t, '.');
  }

  lemma {:induction false} NoDotNoQuad(s: string, from: nat)
    requires from <= |s| && '.' !in s
    ensures FindDottedTail(s, from).None?
    decreases |s| - from
  {
    Text.SplitSingle(s[from..], '.');
    if from < |s| { NoDotNoQuad(s, from + 1); }
  }

  lemma {:induction false} QuadIsFound(prefix: string, quad: string, from: nat)
    requires IsDottedQuad(quad) && from <= |prefix| && (prefix == [] || prefix[|prefix| - 1] == ':')
    ensures FindDottedTail(prefix + quad, from) == Some(|prefix|)
    decreases |prefix| - from
  {
    var s := prefix + quad;
    if from == |prefix| {
      assert s[from..] == quad;
    } else {
      assert s[from..][|prefix| - 1 - from] == ':';
      if IsDottedQuad(s[from..]) { QuadsHaveNoColon(s[from..]); }
      QuadIsFound(prefix, quad, from + 1);
    }
  }

  lemma {:induction false} JoinSnoc(parts: seq<string>, last: string, sep: char)
    ensures Text.Join(parts + [last], sep) == if parts == [] then last else Text.Join(parts, sep) + [sep] + last
  {
    if parts != [] {
      JoinSnoc(parts[1..], last, sep);
      assert (parts + [last])[1..] == parts[1..] + [last];
    }
  }

  /** What stands before the last piece of a written list. */
  function Lead(ps: seq<Part>): string { if ps == [] then [] else Write(ps) + ":" }

  lemma WriteSnoc(ps: seq<Part>, p: Part)
    ensures Write(ps + [p]) == Lead(ps) + PartText(p)
  {
    JoinSnoc(Texts(ps), PartText(p), ':');
    assert Texts(ps + [p]) == Texts(ps) + [PartText(p)];
  }

  lemma HexFits(t: string)
    requires IsNumeral(t, 16) && |t| <= 4
    ensures NumValue(t, 16) <= 0xffff
  {
    var d := [NumValue(t[..0], 16), NumValue(t[..|t| - 1], 16)];
    if |t| >= 2 { assert t[..|t| - 1][..|t| - 2] == t[..|t| - 2]; }
    if |t| >= 3 { assert t[..|t| - 2][..|t| - 3] == t[..|t| - 3]; }
    if |t| >= 4 { assert t[..|t| - 3][..|t| - 4] == t[..|t| - 4]; }
  }

  lemma GroupsFirst(ps: seq<Part>, first: Part, rest: seq<Part>)
    requires ps == [first] + rest && PartOk(first) && AllOk(rest)
    ensures AllOk(ps) && AllGroups(ps) == PartGroups(first) + AllGroups(rest)
  {
    hide PartOk, PartGroups;
    assert ps[0] == first && ps[1..] == rest;
    assert forall i :: 1 <= i < |ps| ==> ps[i] == rest[i - 1];
  }

  lemma {:induction false} GroupsSnoc(ps: seq<Part>, qs: seq<Part>)
    requires AllOk(ps) && AllOk(qs)
    ensures AllOk(ps + qs)
    ensures AllGroups(ps + qs) == AllGroups(ps) + AllGroups(qs)
  {
    hide PartOk, PartGroups;
    if ps == [] {
      assert ps + qs == qs;
    } else {
      var first, rest := ps[0], ps[1..];
      GroupsSnoc(rest, qs);
      assert ps == [first] + rest && ps + qs == [first] + (rest + qs);
      hide AllGroups;
      GroupsFirst(ps, first, rest);
      GroupsFirst(ps + qs, first, rest + qs);
    }
  }

  lemma OctetRange(ts: seq<string>)
    requires PartOk(Quad(ts))
    ensures var o := Octets(ts); o[0] <= 255 && o[1] <= 255 && o[2] <= 255 && o[3] <= 255
  {}

  /** A dotted tail reads as its four octets. */
  lemma QuadReads(ts: seq<string>)
    requires PartOk(Quad(ts))
    ensures IsDottedQuad(Text.Join(ts, '.')) && Ipv4Octets(Text.Join(ts, '.')) == Some(Octets(ts))
  {
    Text.SplitJoin(ts, '.');
  }

  /** Reads as a number: what every piece is once the dotted tail is expanded. */
  predicate Reads(t: string) { IsNumeral(t, 16) && ':' !in t && '.' !in t && NumValue(t, 16) <= 0xffff }

  lemma NumeralReads(t: string)
    requires IsNumeral(t, 16) && NumValue(t, 16) <= 0xffff
    ensures Reads(t)
  {}

  lemma PairReads(a: nat, b: nat)
    requires a <= 255 && b <= 255
    ensures Reads(HexPair(a, b)) && NumValue(HexPair(a, b), 16) == a * 256 + b
  {
    ValueOfText(a * 256 + b, 16);
    NumeralReads(HexPair(a, b));
  }

  predicate AllRead(ts: seq<string>) { forall i :: 0 <= i < |ts| ==> Reads(ts[i]) }

  function Values(ts: seq<string>): seq<nat> { seq(|ts|, i requires 0 <= i < |ts| => NumValue(ts[i], 16)) }

  function ExpandTexts(p: Part): seq<string>
    requires PartOk(p)
  {
    match p
    case Hex(t) => [t]
    case Quad(ts) => var o := Octets(ts); [HexPair(o[0], o[1]), HexPair(o[2], o[3])]
  }

  lemma ExpandedPart(p: Part)
    requires PartOk(p)
    ensures AllRead(ExpandTexts(p)) && Values(ExpandTexts(p)) == PartGroups(p)
  {
    match p
    case Hex(t) => HexFits(t); NumeralReads(t);
    case Quad(ts) =>
      var o := Octets(ts);
      OctetRange(ts);
      PairReads(o[0], o[1]);
      PairReads(o[2], o[3]);
  }

  /** The texts of a list of pieces, its dotted last one written as two groups. */
  function AllTexts(ps: seq<Part>): seq<string>
    requires AllOk(ps)
  {
    if ps == [] then [] else Texts(ps[..|ps| - 1]) + ExpandTexts(ps[|ps| - 1])
  }

  lemma {:induction false} HexTextsRead(ps: seq<Part>)
    requires AllOk(ps) && forall i :: 0 <= i < |ps| ==> ps[i].Hex?
    ensures AllRead(Texts(ps)) && Values(Texts(ps)) == AllGroups(ps)
  {
    if ps != [] {
      ExpandedPart(ps[0]);
      OnePieceTexts(ps);
      hide PartOk, PartGroups, NumValue, IsNumeral, Reads, PartText, Texts;
      HexTextsRead(ps[1..]);
      ReadsConcat([ps[0].text], Texts(ps[1..]));
    }
  }

  lemma OnePieceTexts(ps: seq<Part>)
    requires ps != [] && ps[0].Hex?
    ensures Texts(ps) == [ps[0].text] + Texts(ps[1..])
  {}

  lemma AllTextsRead(ps: seq<Part>, mayEndDotted: bool)
    requires PartsOk(ps, mayEndDotted)
    ensures AllRead(AllTexts(ps)) && Values(AllTexts(ps)) == AllGroups(ps)
  {
    if ps != [] {
      var front, last := ps[..|ps| - 1], ps[|ps| - 1];
      HexTextsRead(front);
      ExpandedPart(last);
      ReadsConcat(Texts(front), ExpandTexts(last));
      GroupsSnoc(front, [last]);
      assert front + [last] == ps;
      assert AllGroups([last]) == PartGroups(last);
    }
  }

  lemma ReadsConcat(a: seq<string>, b: seq<string>)
    requires AllRead(a) && AllRead(b)
    ensures AllRead(a + b) && Values(a + b) == Values(a) + Values(b)
  {}

  // ----- splitting at the colons -----

  predicate NoGap(s: string) { forall i :: 0 <= i < |s| - 1 ==> s[i] != ':' || s[i + 1] != ':' }

  lemma {:induction false} FindGapNone(s: string, from: nat)
    requires from <= |s| && NoGap(s)
    ensures FindGap(s, from).None?
    decreases |s| - from
  {
    if from + 1 < |s| { FindGapNone(s, from + 1); }
  }

  lemma {:induction false} FindGapFirst(a: string, b: string, from: nat)
    requires from <= |a| && NoGap(a) && (a == [] || a[|a| - 1] != ':')
    ensures FindGap(a + "::" + b, from) == Some(|a|)
    decreases |a| - from
  {
    var s := a + "::" + b;
    if from < |a| {
      assert s[from] == a[from] && (from + 1 < |a| ==> s[from + 1] == a[from + 1]);
      FindGapFirst(a, b, from + 1);
    }
  }

  lemma {:induction false} JoinHasNoGap(ts: seq<string>)
    requires AllRead(ts)
    ensures NoGap(Text.Join(ts, ':')) && '.' !in Text.Join(ts, ':')
    ensures ts != [] ==> Text.Join(ts, ':') != [] && Text.Join(ts, ':')[0] != ':'
                         && Text.Join(ts, ':')[|Text.Join(ts, ':')| - 1] != ':'
    ensures ts == [] ==> Text.Join(ts, ':') == []
  {
    if |ts| > 1 {
      JoinHasNoGap(ts[1..]);
      var a, r := ts[0], Text.Join(ts[1..], ':');
      var s := a + ":" + r;
      forall i | 0 <= i < |s| - 1 ensures s[i] != ':' || s[i + 1] != ':' {
        if i < |a| { assert s[i] == a[i] && a[i] in a; }
        else if i > |a| { assert s[i] == r[i - |a| - 1] && s[i + 1] == r[i - |a|]; }
      }
      assert a[0] in a;
    } else if |ts| == 1 {
      assert ts[0][0] in ts[0] && ts[0][|ts[0]| - 1] in ts[0];
      forall i | 0 <= i < |ts[0]| ensures ts[0][i] != ':' { assert ts[0][i] in ts[0]; }
    }
  }

  lemma SplitWritten(ts: seq<string>)
    requires AllRead(ts)
    ensures SplitOrEmpty(Text.Join(ts, ':')) == ts
    ensures ts != [] ==> Text.Split(Text.Join(ts, ':'), ':') == ts
  {
    JoinHasNoGap(ts);
    if ts != [] { Text.SplitJoin(ts, ':'); }
  }

  lemma {:induction false} WholePrefix(s: string)
    requires forall i :: 0 <= i < |s| ==> DigitValue(s[i]) < 16
    ensures HexPrefix(s) == s
  {
    if s != [] { WholePrefix(s[1..]); }
  }

  lemma ParseWritten(ts: seq<string>)
    requires AllRead(ts)
    ensures ParseGroups(ts) == Some(Values(ts))
  {
    forall i | 0 <= i < |ts| ensures ParseGroup(ts[i]) == Some(NumValue(ts[i], 16)) {
      WholePrefix(ts[i]);
    }
    assert ParseGroups(ts).value == Values(ts);
  }

  lemma ZerosRead(n: nat)
    ensures AllRead(Zeros(n)) && Values(Zeros(n)) == ZeroGroups(n)
  {
    forall i | 0 <= i < n ensures Reads(Zeros(n)[i]) && NumValue(Zeros(n)[i], 16) == 0 {
      ValuePush([], '0', 16);
      assert [] + ['0'] == "0";
    }
  }

  lemma GroupsOfPlain(ts: seq<string>)
    requires AllRead(ts) && |ts| == 8
    ensures GroupsOf(Text.Join(ts, ':')) == Some(Values(ts))
  {
    JoinHasNoGap(ts);
    FindGapNone(Text.Join(ts, ':'), 0);
    SplitWritten(ts);
    ParseWritten(ts);
  }

  lemma SplitAtGap(head: seq<string>, tail: seq<string>)
    requires AllRead(head) && AllRead(tail)
    ensures var a, b := Text.Join(head, ':'), Text.Join(tail, ':');
            && FindGap(a + "::" + b, 0) == Some(|a|)
            && SplitOrEmpty((a + "::" + b)[..|a|]) == head && SplitOrEmpty((a + "::" + b)[|a| + 2..]) == tail
  {
    var a, b := Text.Join(head, ':'), Text.Join(tail, ':');
    JoinHasNoGap(head);
    FindGapFirst(a, b, 0);
    assert (a + "::" + b)[..|a|] == a && (a + "::" + b)[|a| + 2..] == b;
    SplitWritten(head);
    SplitWritten(tail);
  }

  lemma ParseFilled(head: seq<string>, n: nat, tail: seq<string>)
    requires AllRead(head) && AllRead(tail)
    ensures ParseGroups(head + Zeros(n) + tail) == Some(Values(head) + ZeroGroups(n) + Values(tail))
  {
    ZerosRead(n);
    ReadsConcat(head, Zeros(n));
    ReadsConcat(head + Zeros(n), tail);
    ParseWritten(head + Zeros(n) + tail);
  }

  lemma GroupsAtGap(work: string, i: nat, head: seq<string>, tail: seq<string>)
    requires FindGap(work, 0) == Some(i) && SplitOrEmpty(work[..i]) == head && SplitOrEmpty(work[i + 2..]) == tail
    requires |head| + |tail| <= 8
    ensures GroupsOf(work) == ParseGroups(head + Zeros(8 - |head| - |tail|) + tail)
  {}

  lemma GroupsOfGapped(head: seq<string>, tail: seq<string>)
    requires AllRead(head) && AllRead(tail) && |head| + |tail| <= 8
    ensures GroupsOf(Text.Join(head, ':') + "::" + Text.Join(tail, ':'))
            == Some(Values(head) + ZeroGroups(8 - |head| - |tail|) + Values(tail))
  {
    hide *;
    SplitAtGap(head, tail);
    GroupsAtGap(Text.Join(head, ':') + "::" + Text.Join(tail, ':'), |Text.Join(head, ':')|, head, tail);
    ParseFilled(head, 8 - |head| - |tail|, tail);
  }

  // ----- expanding the dotted tail -----

  lemma ExpandNoDot(h: string)
    requires '.' !in h
    ensures ExpandDotted(h) == Some(h)
  {
    NoDotNoQuad(h, 0);
  }

  lemma ExpandQuad(lead: string, ts: seq<string>)
    requires PartOk(Quad(ts)) && (lead == [] || lead[|lead| - 1] == ':')
    ensures var o := Octets(ts);
            ExpandDotted(lead + Text.Join(ts, '.')) == Some(lead + HexPair(o[0], o[1]) + ":" + HexPair(o[2], o[3]))
  {
    var quad := Text.Join(ts, '.');
    QuadReads(ts);
    QuadIsFound(lead, quad, 0);
    assert (lead + quad)[|lead|..] == quad;
    assert (lead + quad)[..|lead|] == lead;
  }

  /** Joining a list whose last piece was expanded: the lead, then the two groups. */
  lemma JoinExpanded(front: seq<string>, a: string, b: string)
    ensures Text.Join(front + [a, b], ':') == (if front == [] then [] else Text.Join(front, ':') + ":") + a + ":" + b
  {
    JoinSnoc(front, a, ':');
    JoinSnoc(front + [a], b, ':');
    assert front + [a, b] == (front + [a]) + [b];
  }

  lemma AllHexTexts(ps: seq<Part>)
    requires AllOk(ps) && forall i :: 0 <= i < |ps| ==> ps[i].Hex?
    ensures AllTexts(ps) == Texts(ps)
  {
    if ps != [] { assert ps[..|ps| - 1] + [ps[|ps| - 1]] == ps; }
  }

  lemma ExpandAfterHex(prefix: string, ps: seq<Part>)
    requires AllOk(ps) && '.' !in prefix && forall i :: 0 <= i < |ps| ==> ps[i].Hex?
    ensures ExpandDotted(prefix + Write(ps)) == Some(prefix + Text.Join(AllTexts(ps), ':'))
  {
    HexTextsRead(ps);
    JoinHasNoGap(Texts(ps));
    ExpandNoDot(prefix + Write(ps));
    AllHexTexts(ps);
  }

  lemma AllTextsQuad(front: seq<Part>, ts: seq<string>)
    requires AllOk(front) && PartOk(Quad(ts))
    ensures AllOk(front + [Quad(ts)])
    ensures var o := Octets(ts);
            AllTexts(front + [Quad(ts)]) == Texts(front) + [HexPair(o[0], o[1]), HexPair(o[2], o[3])]
  {
    var ps := front + [Quad(ts)];
    assert ps[..|ps| - 1] == front && ps[|ps| - 1] == Quad(ts);
  }

  lemma ExpandAfterQuad(prefix: string, front: seq<Part>, ts: seq<string>)
    requires AllOk(front) && PartOk(Quad(ts)) && (prefix == [] || prefix[|prefix| - 1] == ':')
    ensures AllOk(front + [Quad(ts)])
    ensures ExpandDotted(prefix + Write(front + [Quad(ts)])) == Some(prefix + Text.Join(AllTexts(front + [Quad(ts)]), ':'))
  {
    AllTextsQuad(front, ts);
    WriteSnoc(front, Quad(ts));
    var o := Octets(ts);
    JoinExpanded(Texts(front), HexPair(o[0], o[1]), HexPair(o[2], o[3]));
    assert Write(front) == Text.Join(Texts(front), ':');
    QuadAppended(prefix, Lead(front), ts);
  }

  lemma Reassociate(prefix: string, lead: string, a: string, b: string)
    ensures (prefix + lead) + a + ":" + b == prefix + (lead + a + ":" + b)
    ensures (prefix + lead) + a == prefix + (lead + a)
  {}

  lemma QuadAppended(prefix: string, lead: string, ts: seq<string>)
    requires PartOk(Quad(ts)) && (prefix == [] || prefix[|prefix| - 1] == ':') && (lead == [] || lead[|lead| - 1] == ':')
    ensures var o := Octets(ts);
            ExpandDotted(prefix + (lead + Text.Join(ts, '.')))
            == Some(prefix + (lead + HexPair(o[0], o[1]) + ":" + HexPair(o[2], o[3])))
  {
    var o := Octets(ts);
    Reassociate(prefix, lead, Text.Join(ts, '.'), []);
    Reassociate(prefix, lead, HexPair(o[0], o[1]), HexPair(o[2], o[3]));
    ExpandQuad(prefix + lead, ts);
  }

  /** Expansion rewrites the dotted last piece of the last list, and nothing else. */
  lemma ExpandAfter(prefix: string, ps: seq<Part>)
    requires PartsOk(ps, true) && '.' !in prefix && (prefix == [] || prefix[|prefix| - 1] == ':')
    ensures ExpandDotted(prefix + Write(ps)) == Some(prefix + Text.Join(AllTexts(ps), ':'))
  {
    if ps == [] || ps[|ps| - 1].Hex? {
      ExpandAfterHex(prefix, ps);
    } else {
      assert ps[..|ps| - 1] + [ps[|ps| - 1]] == ps;
      ExpandAfterQuad(prefix, ps[..|ps| - 1], ps[|ps| - 1].texts);
    }
  }

  /** The parser after normalisation, on any spelling. */
  /** A list of hexadecimal pieces is read as it is written. */
  lemma HexAreTexts(ps: seq<Part>)
    requires PartsOk(ps, false)
    ensures AllTexts(ps) == Texts(ps) && '.' !in Write(ps)
  {
    assert forall i :: 0 <= i < |ps| ==> ps[i].Hex?;
    AllHexTexts(ps);
    HexTextsRead(ps);
    hide AllTexts, PartText, PartOk, Text.Join;
    JoinHasNoGap(Texts(ps));
  }

  lemma TextsAreRead(ps: seq<Part>, mayEndDotted: bool)
    requires PartsOk(ps, mayEndDotted)
    ensures AllRead(AllTexts(ps)) && Values(AllTexts(ps)) == AllGroups(ps) && |AllTexts(ps)| == |AllGroups(ps)|
  {
    AllTextsRead(ps, mayEndDotted);
    hide AllTexts, AllGroups;
  }

  lemma ParsePlain(head: seq<Part>) returns (work: string)
    requires PartsOk(head, true) && |AllGroups(head)| == 8
    ensures ExpandDotted(Write(head)) == Some(work) && GroupsOf(work) == Some(AllGroups(head))
  {
    hide ExpandDotted, GroupsOf, AllTexts, AllGroups, AllRead, PartOk, Text.Join, Texts;
    TextsAreRead(head, true);
    ExpandAfter([], head);
    work := Text.Join(AllTexts(head), ':');
    assert [] + Write(head) == Write(head) && [] + work == work;
    GroupsOfPlain(AllTexts(head));
  }

  lemma ParseGapped(head: seq<Part>, tail: seq<Part>) returns (work: string)
    requires PartsOk(head, false) && PartsOk(tail, true) && |AllGroups(head)| + |AllGroups(tail)| <= 8
    ensures ExpandDotted(Write(head) + "::" + Write(tail)) == Some(work)
    ensures GroupsOf(work)
            == Some(AllGroups(head) + ZeroGroups(8 - |AllGroups(head)| - |AllGroups(tail)|) + AllGroups(tail))
  {
    hide ExpandDotted, GroupsOf, AllTexts, AllGroups, AllRead, PartOk, Text.Join, Texts, Values, ZeroGroups;
    TextsAreRead(head, false);
    TextsAreRead(tail, true);
    HexAreTexts(head);
    var lead := Write(head) + "::";
    assert '.' !in lead;
    ExpandAfter(lead, tail);
    work := lead + Text.Join(AllTexts(tail), ':');
    GroupsOfGapped(AllTexts(head), AllTexts(tail));
  }

  lemma ParseSpelled(s: Spelling, g: seq<nat>)
    requires Spells(s, g)
    ensures ExpandDotted(Spelled(s)).Some? && GroupsOf(ExpandDotted(Spelled(s)).value) == Some(g)
  {
    hide ExpandDotted, GroupsOf, AllGroups, ZeroGroups, Write, PartsOk;
    if s.gap {
      var work := ParseGapped(s.head, s.tail);
    } else {
      var work := ParsePlain(s.head);
    }
  }

  // ----- the theorems -----

  /** Every allowed spelling of an address parses back to it. */
  lemma SpellingsParse(isIp: IsIp, s: Spelling, g: seq<nat>)
    requires Spells(s, g) && isIp(NormalizeHost(Spelled(s))) == 6
    ensures Ipv6Groups(isIp, Spelled(s)) == Some(g)
  {
    LowerWellFormed(s);
    NormalizeSpelled(s);
    assert Spells(LowerSpelling(s), g);
    ParseSpelled(LowerSpelling(s), g);
  }

  lemma {:induction false} GroupsPerPiece(ps: seq<Part>)
    requires AllOk(ps)
    ensures |AllGroups(ps)| <= 2 * |ps|
  {
    if ps != [] { GroupsPerPiece(ps[1..]); }
  }

  /** Eight groups need a colon somewhere. */
  lemma SpelledHasColon(s: Spelling, g: seq<nat>)
    requires Spells(s, g)
    ensures s.gap || |s.head| >= 4
    ensures ':' in Spelled(s)
  {
    if s.gap {
      assert Spelled(s)[|Write(s.head)|] == ':';
    } else {
      GroupsPerPiece(s.head);
      var first := PartText(s.head[0]);
      assert Texts(s.head)[0] == first;
      assert Spelled(s)[|first|] == ':';
    }
  }

  lemma LowerTwice(t: string)
    ensures Lower(Lower(t)) == Lower(t)
  {}

  lemma NormalizeTwice(s: Spelling)
    requires WellFormed(s) && (s.gap || s.head != [])
    ensures NormalizeHost(NormalizeHost(Spelled(s))) == NormalizeHost(Spelled(s))
  {
    SpelledShape(s);
    NormalizeAddress(Spelled(s));
    NormalizeSpelled(s);
    LowerWellFormed(s);
    SpelledShape(LowerSpelling(s));
    NormalizeAddress(Spelled(LowerSpelling(s)));
    LowerTwice(Spelled(s));
  }

  lemma HexValue4(a: char, b: char, c: char, d: char)
    ensures NumValue([a, b, c, d], 16) == ((DigitValue(a) * 16 + DigitValue(b)) * 16 + DigitValue(c)) * 16 + DigitValue(d)
    ensures NumValue([a, b, c], 16) == (DigitValue(a) * 16 + DigitValue(b)) * 16 + DigitValue(c)
  {
    ValuePush([], a, 16);
    assert [] + [a] == [a];
    ValuePush([a], b, 16);
    assert [a] + [b] == [a, b];
    ValuePush([a, b], c, 16);
    assert [a, b] + [c] == [a, b, c];
    ValuePush([a, b, c], d, 16);
    assert [a, b, c] + [d] == [a, b, c, d];
  }

  lemma OneGroup(t: string)
    requires IsNumeral(t, 16) && |t| <= 4
    ensures AllGroups([Hex(t)]) == [NumValue(t, 16)] && Write([Hex(t)]) == t
  {
    assert [Hex(t)][1..] == [];
    assert Texts([Hex(t)]) == [t];
  }

  lemma TwoGroups(t: string, u: string)
    requires IsNumeral(t, 16) && |t| <= 4 && IsNumeral(u, 16) && |u| <= 4
    ensures AllGroups([Hex(t), Hex(u)]) == [NumValue(t, 16), NumValue(u, 16)] && Write([Hex(t), Hex(u)]) == t + ":" + u
  {
    OneGroup(t);
    OneGroup(u);
    GroupsSnoc([Hex(t)], [Hex(u)]);
    WriteSnoc([Hex(t)], Hex(u));
    assert [Hex(t)] + [Hex(u)] == [Hex(t), Hex(u)];
  }

  lemma HexNumerals()
    ensures NumValue("fd00", 16) == 0xfd00 && NumValue("ec2", 16) == 0xec2 && NumValue("254", 16) == 0x254
  {
    HexValue4('f', 'd', '0', '0');
    HexValue4('e', 'c', '2', '0');
    HexValue4('2', '5', '4', '0');
  }

  lemma GappedSpells(a: string, b: string, c: string)
    requires IsNumeral(a, 16) && |a| <= 4 && IsNumeral(b, 16) && |b| <= 4 && IsNumeral(c, 16) && |c| <= 4
    ensures var s := Spelling([Hex(a), Hex(b)], true, [Hex(c)]);
            && Spells(s, [NumValue(a, 16), NumValue(b, 16)] + ZeroGroups(5) + [NumValue(c, 16)])
            && Spelled(s) == a + ":" + b + "::" + c
  {
    TwoGroups(a, b);
    OneGroup(c);
  }

  lemma EndpointNumerals()
    ensures IsNumeral("fd00", 16) && IsNumeral("ec2", 16) && IsNumeral("254", 16)
  {}

  lemma EndpointGroups()
    ensures [0xfd00, 0xec2] + ZeroGroups(5) + [0x254] == METADATA_V6
  {}

  lemma EndpointText(a: string, b: string, c: string)
    requires a == "fd00" && b == "ec2" && c == "254"
    ensures a + ":" + b + "::" + c == "fd00:ec2::254"
  {}

  lemma MetadataIsSpelled() returns (s: Spelling)
    ensures Spells(s, METADATA_V6) && Spelled(s) == "fd00:ec2::254"
  {
    hide *;
    var a, b, c := "fd00", "ec2", "254";
    HexNumerals();
    EndpointNumerals();
    EndpointGroups();
    EndpointText(a, b, c);
    GappedSpells(a, b, c);
    s := Spelling([Hex(a), Hex(b)], true, [Hex(c)]);
  }

  lemma OnlyColonName(h: string)
    requires h in METADATA_HOSTS && ':' in h
    ensures h == "fd00:ec2::254"
  {
    assert ':' !in "169.254.169.254" && ':' !in "169.254.170.2" && ':' !in "100.100.100.200" && ':' !in "168.63.129.16";
    assert ':' !in "metadata.google.internal" && ':' !in "metadata.google.internal.";
  }

  /** One text spells at most one address. */
  lemma SpellingsAreUnambiguous(s: Spelling, g: seq<nat>, t: Spelling, f: seq<nat>)
    requires Spells(s, g) && Spells(t, f) && Spelled(s) == Spelled(t)
    ensures g == f
  {
    ParseSpelled(s, g);
    ParseSpelled(t, f);
  }

  /** The only metadata host name that spells an address is the IPv6 endpoint. */
  lemma MetadataNameMeansEndpoint(s: Spelling, g: seq<nat>)
    requires Spells(s, g) && Spelled(s) in METADATA_HOSTS
    ensures g == METADATA_V6
  {
    assert Spelled(s) == "fd00:ec2::254" by {
      SpelledHasColon(s, g);
      OnlyColonName(Spelled(s));
    }
    var endpoint := MetadataIsSpelled();
    SpellingsAreUnambiguous(s, g, endpoint, METADATA_V6);
  }

  lemma MetadataKind()
    ensures GroupsKind(METADATA_V6) == Metadata
  {}

  /** A text that ends in a hexadecimal digit or a colon is no local name. */
  lemma NotALocalName(h: string)
    requires h != [] && (DigitValue(h[|h| - 1]) < 16 || h[|h| - 1] == ':')
    ensures !IsLocalName(h)
  {
    EndsWithLast(h, ".localhost");
    EndsWithLast(h, ".local");
    EndsWithLast(h, "localhost");
    assert Text.EndsWith("localhost", "localhost");
  }

  lemma EndsWithLast(h: string, suffix: string)
    requires h != [] && suffix != []
    ensures Text.EndsWith(h, suffix) ==> h[|h| - 1] == suffix[|suffix| - 1]
  {
    if Text.EndsWith(h, suffix) { assert h[|h| - |suffix|..][|suffix| - 1] == suffix[|suffix| - 1]; }
  }

  /** What `HostKind` makes of an IPv6 text once it is normalised. */
  lemma KindOfNormalized(isIp: IsIp, host: string, h: string, g: seq<nat>)
    requires h == NormalizeHost(host) == NormalizeHost(h) && isIp(h) == 6 && h != [] && !IsLocalName(h)
    requires Ipv6Groups(isIp, h) == Some(g) && (h in METADATA_HOSTS ==> GroupsKind(g) == Metadata)
    ensures HostKind(isIp, host) == GroupsKind(g)
  {
    hide NormalizeHost, Ipv6Groups, GroupsKind, Ipv4Kind;
    assert h != "localhost" && !Text.EndsWith(h, ".localhost") && !Text.EndsWith(h, ".local");
  }

  /** Every allowed spelling parses back to its address, also after normalisation. */
  lemma NormalizedParses(isIp: IsIp, s: Spelling, g: seq<nat>, h: string)
    requires Spells(s, g) && h == NormalizeHost(Spelled(s)) && isIp(h) == 6
    ensures NormalizeHost(h) == h && Ipv6Groups(isIp, h) == Some(g) && h != [] && !IsLocalName(h)
    ensures h in METADATA_HOSTS ==> g == METADATA_V6
  {
    var low := LowerSpelling(s);
    LoweredSpells(s, g, low);
    hide Spelled, ExpandDotted, GroupsOf, Spells, IsLocalName, DigitValue;
    ParseSpelled(low, g);
    NotALocalName(h);
    if h in METADATA_HOSTS { MetadataNameMeansEndpoint(low, g); }
  }

  /** Normalising a spelling lowers it, once and for all. */
  lemma LoweredSpells(s: Spelling, g: seq<nat>, low: Spelling)
    requires Spells(s, g) && low == LowerSpelling(s)
    ensures Spells(low, g) && NormalizeHost(Spelled(s)) == Spelled(low) && NormalizeHost(Spelled(low)) == Spelled(low)
    ensures var h := Spelled(low); h != [] && (DigitValue(h[|h| - 1]) < 16 || h[|h| - 1] == ':')
  {
    hide Spelled, NormalizeHost, AllGroups, ZeroGroups, PartOk, PartsOk, DigitValue;
    SpelledHasColon(s, g);
    NormalizeTwice(s);
    NormalizeSpelled(s);
    LowerWellFormed(s);
    SpelledShape(low);
  }

  /** Classification of a spelled address depends only on the address. */
  lemma HostKindOfSpelling(isIp: IsIp, s: Spelling, g: seq<nat>)
    requires Spells(s, g) && isIp(NormalizeHost(Spelled(s))) == 6
    ensures HostKind(isIp, Spelled(s)) == GroupsKind(g)
  {
    hide *;
    var h := NormalizeHost(Spelled(s));
    NormalizedParses(isIp, s, g, h);
    MetadataKind();
    KindOfNormalized(isIp, Spelled(s), h, g);
  }

  /** Two spellings of one address are classified alike. */
  lemma SpellingDoesNotMatter(isIp: IsIp, s: Spelling, t: Spelling, g: seq<nat>)
    requires Spells(s, g) && Spells(t, g)
    requires isIp(NormalizeHost(Spelled(s))) == 6 && isIp(NormalizeHost(Spelled(t))) == 6
    ensures HostKind(isIp, Spelled(s)) == HostKind(isIp, Spelled(t))
  {
    HostKindOfSpelling(isIp, s, g);
    HostKindOfSpelling(isIp, t, g);
  }

  // ----- canonical forms -----

  /** Equal canonical texts mean equal groups, so the metadata test is a test of the address. */
  lemma CanonIsInjective(a: seq<nat>, b: seq<nat>)
    requires |a| == |b| == 8 && Ipv6Canon(a) == Ipv6Canon(b)
    ensures a == b
  {
    Text.SplitJoin(HexTexts(a), ':');
    Text.SplitJoin(HexTexts(b), ':');
    forall i | 0 <= i < 8 ensures a[i] == b[i] {
      ValueOfText(a[i], 16);
      ValueOfText(b[i], 16);
      assert HexTexts(a)[i] == HexTexts(b)[i];
    }
  }

  lemma MetadataIffEndpoint(g: seq<nat>)
    requires |g| == 8 && MappedV4Kind(g).None?
    ensures GroupsKind(g) == Metadata <==> g == METADATA_V6
  {
    hide Ipv6Canon, MappedV4Kind;
    if Ipv6Canon(g) == Ipv6Canon(METADATA_V6) { CanonIsInjective(g, METADATA_V6); }
  }

  // ----- IPv4-mapped addresses -----

  predicate IsOctets(o: seq<nat>) { |o| == 4 && forall i :: 0 <= i < 4 ==> o[i] <= 255 }

  /** Octets written in decimal read back. */
  lemma OctetsReadBack(o: seq<nat>)
    requires IsOctets(o)
    ensures Ipv4Octets(Dotted(o)) == Some(o)
  {
    var ts := DecimalTexts(o);
    forall i | 0 <= i < 4 ensures IsNumeral(ts[i], 10) && '.' !in ts[i] && NumValue(ts[i], 10) == o[i] {
      ValueOfText(o[i], 10);
    }
    Text.SplitJoin(ts, '.');
    assert [NumValue(ts[0], 10), NumValue(ts[1], 10), NumValue(ts[2], 10), NumValue(ts[3], 10)] == o;
  }

  /** `::ffff:a.b.c.d` as groups (section 2.5.5.2 of RFC 4291). */
  function Mapped(o: seq<nat>): seq<nat>
    requires |o| == 4
  {
    [0, 0, 0, 0, 0, 0xffff, o[0] * 256 + o[1], o[2] * 256 + o[3]]
  }

  lemma BytesOf(a: nat, b: nat)
    requires a <= 255 && b <= 255
    ensures (a * 256 + b) / 256 % 256 == a && (a * 256 + b) % 256 == b
  {}

  lemma MappedKind(o: seq<nat>)
    requires IsOctets(o)
    ensures GroupsKind(Mapped(o)) == OctetsKind(o)
  {
    BytesOf(o[0], o[1]);
    BytesOf(o[2], o[3]);
    OctetsReadBack(o);
    hide OctetsKind, Ipv4Octets, Dotted, Ipv6Canon;
    var g := Mapped(o);
    assert [g[6] / 256 % 256, g[6] % 256, g[7] / 256 % 256, g[7] % 256] == o;
  }

  /** However it is spelled, an IPv4-mapped address is classified as its IPv4 address is, however that is spelled. */
  lemma MappedIsClassifiedAsIpv4(isIp: IsIp, s: Spelling, o: seq<nat>, v4: string)
    requires IsOctets(o) && Spells(s, Mapped(o)) && isIp(NormalizeHost(Spelled(s))) == 6
    requires Ipv4Octets(v4) == Some(o)
    ensures Ipv4Kind(v4) == Some(HostKind(isIp, Spelled(s)))
  {
    HostKindOfSpelling(isIp, s, Mapped(o));
    MappedKind(o);
  }
}
