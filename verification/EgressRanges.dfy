/** The classification table as ranges of addresses, each address taken as one number. */
module EgressRanges {
  import opened Wrappers
  import opened Numerals
  import opened EgressNet
  import opened Ipv6Spelling
  import opened CnameFollower
  import Text

  /** The address `a.b.c.d` as a number. */
  function Ip(a: nat, b: nat, c: nat, d: nat): nat { ((a * 256 + b) * 256 + c) * 256 + d }

  function Number(o: seq<nat>): nat
    requires |o| == 4
  {
    Ip(o[0], o[1], o[2], o[3])
  }

  predicate IsMetadata(n: nat) {
    n in {Ip(169, 254, 169, 254), Ip(169, 254, 170, 2), Ip(100, 100, 100, 200), Ip(168, 63, 129, 16)}
  }

  /** The addresses of a kind; the metadata endpoints are taken out of the ranges they lie in. */
  predicate InRange(n: nat, kind: Kind) {
    match kind
    case Metadata => IsMetadata(n)
    case Unspecified => n <= Ip(0, 255, 255, 255)
    case Loopback => Ip(127, 0, 0, 0) <= n <= Ip(127, 255, 255, 255)
    case LinkLocal => !IsMetadata(n) && Ip(169, 254, 0, 0) <= n <= Ip(169, 254, 255, 255)
    case Multicast => Ip(224, 0, 0, 0) <= n <= Ip(239, 255, 255, 255)
    case Private =>
      !IsMetadata(n)
      && (Ip(10, 0, 0, 0) <= n <= Ip(10, 255, 255, 255) || Ip(100, 64, 0, 0) <= n <= Ip(100, 127, 255, 255)
          || Ip(172, 16, 0, 0) <= n <= Ip(172, 31, 255, 255) || Ip(192, 168, 0, 0) <= n <= Ip(192, 168, 255, 255)
          || Ip(198, 18, 0, 0) <= n <= Ip(198, 19, 255, 255))
    case _ => false
  }

  /** `kind` is what the table says about the number: the range it lies in, or public if it lies in none. */
  ghost predicate IsKindOf(n: nat, kind: Kind) {
    && (forall k: Kind :: k != Public ==> (kind == k <==> InRange(n, k)))
    && (kind == Public <==> forall k: Kind :: !InRange(n, k))
  }

  lemma RangesAreDisjoint(n: nat, k: Kind, l: Kind)
    requires InRange(n, k) && InRange(n, l)
    ensures k == l
  {}

  // ----- the metadata endpoints -----

  lemma ThreeDigits(n: nat, a: nat, b: nat, c: nat)
    requires 1 <= a <= 9 && b <= 9 && c <= 9 && n == a * 100 + b * 10 + c
    ensures NumText(n, 10) == [DigitChar(a), DigitChar(b), DigitChar(c)]
  {
    assert n / 10 == a * 10 + b && n % 10 == c && n / 10 / 10 == a && n / 10 % 10 == b;
    assert NumText(a, 10) == [DigitChar(a)];
    assert NumText(n / 10, 10) == NumText(a, 10) + [DigitChar(b)];
  }

  lemma TwoDigits(n: nat, a: nat, b: nat)
    requires 1 <= a <= 9 && b <= 9 && n == a * 10 + b
    ensures NumText(n, 10) == [DigitChar(a), DigitChar(b)]
  {
    assert n / 10 == a && n % 10 == b;
    assert NumText(a, 10) == [DigitChar(a)];
  }

  lemma JoinFour(a: string, b: string, c: string, d: string)
    ensures Text.Join([a, b, c, d], '.') == a + "." + (b + "." + (c + "." + d))
  {
    assert [a, b, c, d][1..] == [b, c, d] && [b, c, d][1..] == [c, d] && [c, d][1..] == [d];
    assert Text.Join([c, d], '.') == c + "." + Text.Join([d], '.') == c + "." + d;
    assert Text.Join([b, c, d], '.') == b + "." + Text.Join([c, d], '.');
    assert Text.Join([a, b, c, d], '.') == a + "." + Text.Join([b, c, d], '.');
  }

  lemma DottedText(o: seq<nat>, a: string, b: string, c: string, d: string)
    requires |o| == 4
    requires NumText(o[0], 10) == a && NumText(o[1], 10) == b && NumText(o[2], 10) == c && NumText(o[3], 10) == d
    ensures Dotted(o) == a + "." + (b + "." + (c + "." + d))
  {
    hide NumText;
    assert DecimalTexts(o) == [a, b, c, d];
    JoinFour(a, b, c, d);
  }

  lemma Numbers()
    ensures NumText(169, 10) == "169" && NumText(254, 10) == "254" && NumText(170, 10) == "170" && NumText(2, 10) == "2"
    ensures NumText(100, 10) == "100" && NumText(200, 10) == "200"
    ensures NumText(168, 10) == "168" && NumText(63, 10) == "63" && NumText(129, 10) == "129" && NumText(16, 10) == "16"
  {
    ThreeDigits(169, 1, 6, 9);
    ThreeDigits(254, 2, 5, 4);
    ThreeDigits(170, 1, 7, 0);
    assert NumText(2, 10) == "2";
    ThreeDigits(100, 1, 0, 0);
    ThreeDigits(200, 2, 0, 0);
    ThreeDigits(168, 1, 6, 8);
    TwoDigits(63, 6, 3);
    ThreeDigits(129, 1, 2, 9);
    TwoDigits(16, 1, 6);
    hide NumText;
  }

  lemma Concatenated()
    ensures "169" + "." + ("254" + "." + ("169" + "." + "254")) == "169.254.169.254"
    ensures "169" + "." + ("254" + "." + ("170" + "." + "2")) == "169.254.170.2"
    ensures "100" + "." + ("100" + "." + ("100" + "." + "200")) == "100.100.100.200"
    ensures "168" + "." + ("63" + "." + ("129" + "." + "16")) == "168.63.129.16"
  {}

  lemma EndpointsDotted()
    ensures Dotted([169, 254, 169, 254]) == "169.254.169.254" && Dotted([169, 254, 170, 2]) == "169.254.170.2"
    ensures Dotted([100, 100, 100, 200]) == "100.100.100.200" && Dotted([168, 63, 129, 16]) == "168.63.129.16"
  {
    hide *;
    Numbers();
    Concatenated();
    DottedText([169, 254, 169, 254], "169", "254", "169", "254");
    DottedText([169, 254, 170, 2], "169", "254", "170", "2");
    DottedText([100, 100, 100, 200], "100", "100", "100", "200");
    DottedText([168, 63, 129, 16], "168", "63", "129", "16");
  }

  lemma DottedIsInjective(o: seq<nat>, p: seq<nat>)
    requires IsOctets(o) && IsOctets(p) && Dotted(o) == Dotted(p)
    ensures o == p
  {
    OctetsReadBack(o);
    OctetsReadBack(p);
    hide Ipv4Octets, Dotted;
  }

  /** Octets in decimal hold digits and dots only, and four numbers. */
  lemma DottedShape(o: seq<nat>)
    requires IsOctets(o)
    ensures AddressText(Dotted(o)) && ':' !in Dotted(o) && Dotted(o) != []
    ensures DigitValue(Dotted(o)[|Dotted(o)| - 1]) < 10
  {
    hide NumText;
    var ts := DecimalTexts(o);
    assert forall i :: 0 <= i < 4 ==> IsNumeral(ts[i], 10);
    JoinKeepsChars(ts, '.');
    JoinEnds(ts, '.');
    QuadHasNoColon(ts);
  }

  lemma NotTheNames(h: string)
    requires AddressText(h) && ':' !in h
    ensures h != "metadata.google.internal" && h != "metadata.google.internal." && h != "fd00:ec2::254"
  {
    assert !AddressChar("metadata.google.internal"[0]) && !AddressChar("metadata.google.internal."[0]);
    assert "fd00:ec2::254"[4] == ':';
  }

  predicate IsEndpoint(o: seq<nat>) {
    o in {[169, 254, 169, 254], [169, 254, 170, 2], [100, 100, 100, 200], [168, 63, 129, 16]}
  }

  lemma OneText(o: seq<nat>, a: nat, b: nat, c: nat, d: nat, text: string)
    requires IsOctets(o) && a <= 255 && b <= 255 && c <= 255 && d <= 255 && Dotted([a, b, c, d]) == text
    ensures Dotted(o) == text <==> o == [a, b, c, d]
  {
    hide Dotted;
    if Dotted(o) == text { DottedIsInjective(o, [a, b, c, d]); }
  }

  predicate IsEndpointText(h: string) {
    h == "169.254.169.254" || h == "169.254.170.2" || h == "100.100.100.200" || h == "168.63.129.16"
  }

  lemma EndpointTexts(h: string)
    requires h != "metadata.google.internal" && h != "metadata.google.internal." && h != "fd00:ec2::254"
    ensures h in METADATA_HOSTS <==> IsEndpointText(h)
  {}

  lemma EndpointTextIff(o: seq<nat>)
    requires IsOctets(o)
    ensures IsEndpointText(Dotted(o)) <==> IsEndpoint(o)
  {
    hide Dotted;
    EndpointsDotted();
    OneText(o, 169, 254, 169, 254, "169.254.169.254");
    OneText(o, 169, 254, 170, 2, "169.254.170.2");
    OneText(o, 100, 100, 100, 200, "100.100.100.200");
    OneText(o, 168, 63, 129, 16, "168.63.129.16");
  }

  lemma DottedMetadataIff(o: seq<nat>)
    requires IsOctets(o)
    ensures Dotted(o) in METADATA_HOSTS <==> IsEndpoint(o)
  {
    DottedShape(o);
    hide Dotted, IsOctets, AddressText, IsEndpointText, IsEndpoint;
    NotTheNames(Dotted(o));
    EndpointTexts(Dotted(o));
    EndpointTextIff(o);
  }

  lemma OneNumber(o: seq<nat>, a: nat, b: nat, c: nat, d: nat)
    requires IsOctets(o) && a <= 255 && b <= 255 && c <= 255 && d <= 255
    ensures Number(o) == Ip(a, b, c, d) <==> o == [a, b, c, d]
  {
    assert o == [o[0], o[1], o[2], o[3]];
  }

  lemma EndpointNumbers(o: seq<nat>)
    requires IsOctets(o)
    ensures IsEndpoint(o) <==> IsMetadata(Number(o))
  {
    hide Number, Ip;
    OneNumber(o, 169, 254, 169, 254);
    OneNumber(o, 169, 254, 170, 2);
    OneNumber(o, 100, 100, 100, 200);
    OneNumber(o, 168, 63, 129, 16);
  }

  // ----- IPv4 -----

  /** Every IPv4 address has the kind of the range it lies in. */
  lemma OctetsKindIff(o: seq<nat>)
    requires IsOctets(o)
    ensures IsKindOf(Number(o), OctetsKind(o))
  {
    DottedMetadataIff(o);
    EndpointNumbers(o);
    hide Dotted, IsEndpoint, IsMetadata;
    OctetsKindRange(o);
    KindFromRange(Number(o), OctetsKind(o));
  }

  lemma OctetsKindRange(o: seq<nat>)
    requires IsOctets(o) && (Dotted(o) in METADATA_HOSTS <==> IsMetadata(Number(o)))
    ensures var k := OctetsKind(o);
            if k == Public then forall l: Kind :: !InRange(Number(o), l) else InRange(Number(o), k)
  {
    hide Dotted, IsMetadata;
  }

  lemma KindFromRange(n: nat, kind: Kind)
    requires if kind == Public then forall l: Kind :: !InRange(n, l) else InRange(n, kind)
    ensures IsKindOf(n, kind)
  {
    forall k: Kind | InRange(n, k) ensures k == kind { if kind != Public { RangesAreDisjoint(n, k, kind); } }
    hide InRange;
  }

  /** And so has every host text that names it. */
  lemma HostKindOfIpv4(isIp: IsIp, host: string, o: seq<nat>)
    requires IsOctets(o) && NormalizeHost(host) == Dotted(o) && isIp(Dotted(o)) == 4
    ensures IsKindOf(Number(o), HostKind(isIp, host))
  {
    var h := Dotted(o);
    OctetsKindIff(o);
    OctetsReadBack(o);
    DottedShape(o);
    hide NormalizeHost, Dotted, Ipv4Octets, IsKindOf, IsOctets;
    NotALocalName(h);
    assert HostKind(isIp, host) == OctetsKind(o);
  }

  // ----- IPv6 -----

  predicate IsMapped(g: seq<nat>)
    requires |g| == 8
  {
    g[..5] == [0, 0, 0, 0, 0] && g[5] == 0xffff
  }

  /** The addresses of a kind outside the IPv4-mapped range, by the first group or as single addresses. */
  predicate InV6Range(g: seq<nat>, kind: Kind)
    requires |g| == 8
  {
    match kind
    case Metadata => g == [0xfd00, 0xec2, 0, 0, 0, 0, 0, 0x254]
    case Unspecified => g == [0, 0, 0, 0, 0, 0, 0, 0]
    case Loopback => g == [0, 0, 0, 0, 0, 0, 0, 1]
    case Private => 0xfc00 <= g[0] <= 0xfdff && g != [0xfd00, 0xec2, 0, 0, 0, 0, 0, 0x254]
    case LinkLocal => 0xfe80 <= g[0] <= 0xfebf
    case Multicast => 0xff00 <= g[0]
    case _ => false
  }

  predicate IsGroups(g: seq<nat>) { |g| == 8 && forall i :: 0 <= i < 8 ==> g[i] <= 0xffff }

  ghost predicate IsV6KindOf(g: seq<nat>, kind: Kind)
    requires |g| == 8
  {
    if IsMapped(g) then IsKindOf(g[6] * 0x10000 + g[7], kind)
    else (forall k: Kind :: k != Public ==> (kind == k <==> InV6Range(g, k)))
         && (kind == Public <==> forall k: Kind :: !InV6Range(g, k))
  }

  lemma MappedOctets(g: seq<nat>) returns (o: seq<nat>)
    requires IsGroups(g) && IsMapped(g)
    ensures IsOctets(o) && g == Mapped(o) && Number(o) == g[6] * 0x10000 + g[7]
  {
    o := [g[6] / 256, g[6] % 256, g[7] / 256, g[7] % 256];
    assert g == g[..5] + [g[5], g[6], g[7]];
    assert Mapped(o) == [0, 0, 0, 0, 0] + [0xffff, g[6], g[7]];
  }

  lemma NotMapped(g: seq<nat>)
    requires |g| == 8 && !IsMapped(g)
    ensures MappedV4Kind(g).None?
  {
    hide Ipv4Kind, Dotted;
    assert g[..5] == [g[0], g[1], g[2], g[3], g[4]];
  }

  lemma PlainGroupsKind(g: seq<nat>)
    requires IsGroups(g) && !IsMapped(g)
    ensures var k := GroupsKind(g); if k == Public then forall l: Kind :: !InV6Range(g, l) else InV6Range(g, k)
  {
    NotMapped(g);
    MetadataIffEndpoint(g);
    hide MappedV4Kind, Ipv6Canon, IsMapped;
    assert g[0] / 0x200 == 0xfc00 / 0x200 <==> 0xfc00 <= g[0] <= 0xfdff;
    assert g[0] / 0x40 == 0xfe80 / 0x40 <==> 0xfe80 <= g[0] <= 0xfebf;
    assert g[0] / 0x100 == 0xff <==> 0xff00 <= g[0];
  }

  lemma V6RangesAreDisjoint(g: seq<nat>, k: Kind, l: Kind)
    requires |g| == 8 && InV6Range(g, k) && InV6Range(g, l)
    ensures k == l
  {
    assert [0xfd00, 0xec2, 0, 0, 0, 0, 0, 0x254][0] == 0xfd00;
    assert [0, 0, 0, 0, 0, 0, 0, 0][7] == 0 && [0, 0, 0, 0, 0, 0, 0, 0][0] == 0;
    assert [0, 0, 0, 0, 0, 0, 0, 1][7] == 1 && [0, 0, 0, 0, 0, 0, 0, 1][0] == 0;
  }

  lemma MappedGroupsKind(g: seq<nat>)
    requires IsGroups(g) && IsMapped(g)
    ensures IsKindOf(g[6] * 0x10000 + g[7], GroupsKind(g))
  {
    hide *;
    var o := MappedOctets(g);
    SameKind(g, o);
  }

  lemma SameKind(g: seq<nat>, o: seq<nat>)
    requires IsOctets(o) && g == Mapped(o)
    ensures IsKindOf(Number(o), GroupsKind(g))
  {
    hide *;
    MappedKind(o);
    OctetsKindIff(o);
  }

  /** Every IPv6 address has the kind of its range, an IPv4-mapped one that of its IPv4 range. */
  lemma GroupsKindIff(g: seq<nat>)
    requires IsGroups(g)
    ensures IsV6KindOf(g, GroupsKind(g))
  {
    hide InV6Range, GroupsKind, IsMapped, IsKindOf;
    if IsMapped(g) {
      MappedGroupsKind(g);
    } else {
      PlainGroupsKind(g);
      var kind := GroupsKind(g);
      forall k: Kind | InV6Range(g, k) ensures k == kind { if kind != Public { V6RangesAreDisjoint(g, k, kind); } }
    }
  }

  /** And so has every host text that spells it. */
  lemma HostKindOfIpv6(isIp: IsIp, s: Spelling, g: seq<nat>)
    requires IsGroups(g) && Spells(s, g) && isIp(NormalizeHost(Spelled(s))) == 6
    ensures IsV6KindOf(g, HostKind(isIp, Spelled(s)))
  {
    hide *;
    HostKindOfSpelling(isIp, s, g);
    GroupsKindIff(g);
  }

  // ----- names -----

  /** Which kinds a plain name that is no address can have, and when; a final dot changes none of it. */
  lemma HostKindOfName(isIp: IsIp, name: string)
    requires IsPlain(name) && isIp(name) == 0
    ensures HostKind(isIp, name + ".") == HostKind(isIp, name)
    ensures var k := HostKind(isIp, name);
            && (k == Metadata <==> name in METADATA_HOSTS)
            && (k == Loopback <==> name !in METADATA_HOSTS && (name == "localhost" || Text.EndsWith(name, ".localhost")))
            && (k == PrivateName <==> name !in METADATA_HOSTS && Text.EndsWith(name, ".local"))
            && k in {Metadata, Loopback, PrivateName, Public}
  {
    NormalizedName(name);
    NotBothLocal(name);
    hide NormalizeHost, Text.EndsWith;
  }

  lemma NormalizedName(name: string)
    requires IsPlain(name)
    ensures NormalizeHost(name) == name == NormalizeHost(name + ".") && name != []
  {
    var dotted := name + ".";
    assert PlainChars(dotted);
    PlainNormalized((_: string) => 0, (_: string) => None, name);
    PlainNormalized((_: string) => 0, (_: string) => None, dotted);
  }

  lemma NotBothLocal(name: string)
    ensures !(Text.EndsWith(name, ".local") && (name == "localhost" || Text.EndsWith(name, ".localhost")))
  {
    if Text.EndsWith(name, ".local") && name != [] {
      EndsWithLast(name, ".local");
      EndsWithLast(name, ".localhost");
      assert "localhost"[8] == 't';
    }
  }
}
