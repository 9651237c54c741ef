/** Host normalisation and address classification of the egress policy. `net.isIP` is a parameter. */
module EgressNet {
  import opened Wrappers
  import opened Numerals
  import Text

  type IsIp = string -> int

  datatype Kind = Metadata | Loopback | Unspecified | Private | PrivateName | LinkLocal | Multicast | Public | NoHost

  const METADATA_HOSTS := {
    "169.254.169.254", "169.254.170.2", "100.100.100.200", "168.63.129.16", "fd00:ec2::254",
    "metadata.google.internal", "metadata.google.internal."}

  /** The text before the first `c`. */
  function Before(s: string, c: char): string {
    if s == [] || s[0] == c then [] else [s[0]] + Before(s[1..], c)
  }

  function WithoutFinalDot(s: string): string {
    if s != [] && s[|s| - 1] == '.' then s[..|s| - 1] else s
  }

  function NormalizeHost(host: string): string {
    var h := Lower(Text.Trim(host));
    var inner := if |h| >= 2 && h[0] == '[' && h[|h| - 1] == ']' then h[1..|h| - 1] else h;
    WithoutFinalDot(Before(inner, '%'))
  }

  // ----- IPv4 -----

  predicate IsDottedText(s: string) {
    var parts := Text.Split(s, '.');
    |parts| == 4 && forall i :: 0 <= i < 4 ==> IsNumeral(parts[i], 10)
  }

  function Ipv4Octets(host: string): Option<seq<nat>> {
    if !IsDottedText(host) then None
    else
      var parts := Text.Split(host, '.');
      var o := [NumValue(parts[0], 10), NumValue(parts[1], 10), NumValue(parts[2], 10), NumValue(parts[3], 10)];
      if o[0] > 255 || o[1] > 255 || o[2] > 255 || o[3] > 255 then None else Some(o)
  }

  function DecimalTexts(o: seq<nat>): seq<string> {
    seq(|o|, i requires 0 <= i < |o| => NumText(o[i], 10))
  }

  /** `o.join('.')`. */
  function Dotted(o: seq<nat>): string { Text.Join(DecimalTexts(o), '.') }

  function OctetsKind(o: seq<nat>): Kind
    requires |o| == 4
  {
    if Dotted(o) in METADATA_HOSTS then Metadata
    else if o[0] == 127 then Loopback
    else if o[0] == 0 then Unspecified
    else if o[0] == 10 then Private
    else if o[0] == 172 && 16 <= o[1] <= 31 then Private
    else if o[0] == 192 && o[1] == 168 then Private
    else if o[0] == 169 && o[1] == 254 then LinkLocal
    else if o[0] == 100 && 64 <= o[1] <= 127 then Private
    else if o[0] == 198 && (o[1] == 18 || o[1] == 19) then Private
    else if 224 <= o[0] <= 239 then Multicast
    else Public
  }

  function Ipv4Kind(host: string): Option<Kind> {
    match Ipv4Octets(host) case None => None case Some(o) => Some(OctetsKind(o))
  }

  // ----- IPv6 -----

  /** What `\d{1,3}(?:\.\d{1,3}){3}` matches in full. */
  predicate IsDottedQuad(s: string) {
    var parts := Text.Split(s, '.');
    |parts| == 4 && forall i :: 0 <= i < 4 ==> IsNumeral(parts[i], 10) && |parts[i]| <= 3
  }

  /** Where that pattern, anchored at the end, first matches. */
  function FindDottedTail(s: string, from: nat): (r: Option<nat>)
    requires from <= |s|
    ensures r.Some? ==> from <= r.value <= |s| && IsDottedQuad(s[r.value..])
    decreases |s| - from
  {
    if IsDottedQuad(s[from..]) then Some(from)
    else if from == |s| then None else FindDottedTail(s, from + 1)
  }

  /** `s.indexOf('::')`. */
  function FindGap(s: string, from: nat): (r: Option<nat>)
    requires from <= |s|
    ensures r.Some? ==> from <= r.value && r.value + 2 <= |s| && s[r.value] == ':' && s[r.value + 1] == ':'
    decreases |s| - from
  {
    if from + 1 >= |s| then None
    else if s[from] == ':' && s[from + 1] == ':' then Some(from) else FindGap(s, from + 1)
  }

  function SplitOrEmpty(s: string): seq<string> { if s == [] then [] else Text.Split(s, ':') }

  function HexPrefix(s: string): string {
    if s == [] || DigitValue(s[0]) >= 16 then [] else [s[0]] + HexPrefix(s[1..])
  }

  /** `parseInt(g || '0', 16)`: an empty group counts as zero, a group that starts with no digit is not a number. */
  function ParseGroup(g: string): Option<nat> {
    if g == [] then Some(0)
    else if HexPrefix(g) == [] then None else Some(NumValue(HexPrefix(g), 16))
  }

  function ParseGroups(parts: seq<string>): (r: Option<seq<nat>>)
    ensures r.Some? ==> |r.value| == |parts| && forall i :: 0 <= i < |parts| ==> r.value[i] <= 0xffff
  {
    if exists i :: 0 <= i < |parts| && (ParseGroup(parts[i]).None? || ParseGroup(parts[i]).value > 0xffff) then None
    else Some(seq(|parts|, i requires 0 <= i < |parts| => ParseGroup(parts[i]).value))
  }

  function HexPair(a: nat, b: nat): string { NumText(a * 256 + b, 16) }

  /** A dotted tail rewritten as two hexadecimal groups; `None` when its octets are out of range. */
  function ExpandDotted(h: string): Option<string> {
    match FindDottedTail(h, 0)
    case None => Some(h)
    case Some(i) =>
      match Ipv4Octets(h[i..])
      case None => None
      case Some(o) => Some(h[..i] + HexPair(o[0], o[1]) + ":" + HexPair(o[2], o[3]))
  }

  function Zeros(n: nat): seq<string> { seq(n, i => "0") }

  function GroupsOf(work: string): (r: Option<seq<nat>>)
    ensures r.Some? ==> |r.value| == 8 && forall i :: 0 <= i < 8 ==> r.value[i] <= 0xffff
  {
    match FindGap(work, 0)
    case None =>
      var parts := Text.Split(work, ':');
      if |parts| != 8 then None else ParseGroups(parts)
    case Some(i) =>
      var head, tail := SplitOrEmpty(work[..i]), SplitOrEmpty(work[i + 2..]);
      if |head| + |tail| > 8 then None else ParseGroups(head + Zeros(8 - |head| - |tail|) + tail)
  }

  function Ipv6Groups(isIp: IsIp, host: string): (r: Option<seq<nat>>)
    ensures r.Some? ==> |r.value| == 8 && forall i :: 0 <= i < 8 ==> r.value[i] <= 0xffff
  {
    var h := NormalizeHost(host);
    if isIp(h) != 6 then None
    else match ExpandDotted(h) case None => None case Some(work) => GroupsOf(work)
  }

  function HexTexts(g: seq<nat>): seq<string> {
    seq(|g|, i requires 0 <= i < |g| => NumText(g[i], 16))
  }

  function Ipv6Canon(g: seq<nat>): string { Text.Join(HexTexts(g), ':') }

  const METADATA_V6 := [0xfd00, 0xec2, 0, 0, 0, 0, 0, 0x254]

  function MappedV4Kind(g: seq<nat>): Option<Kind>
    requires |g| == 8
  {
    if g[0] != 0 || g[1] != 0 || g[2] != 0 || g[3] != 0 || g[4] != 0 || g[5] != 0xffff then None
    else Ipv4Kind(Dotted([g[6] / 256 % 256, g[6] % 256, g[7] / 256 % 256, g[7] % 256]))
  }

  function GroupsKind(g: seq<nat>): Kind
    requires |g| == 8
  {
    if MappedV4Kind(g).Some? then MappedV4Kind(g).value
    else if Ipv6Canon(g) == Ipv6Canon(METADATA_V6) then Metadata
    else if g == [0, 0, 0, 0, 0, 0, 0, 1] then Loopback
    else if g == [0, 0, 0, 0, 0, 0, 0, 0] then Unspecified
    else if g[0] / 0x200 == 0xfc00 / 0x200 then Private
    else if g[0] / 0x40 == 0xfe80 / 0x40 then LinkLocal
    else if g[0] / 0x100 == 0xff then Multicast
    else Public
  }

  function Ipv6Kind(isIp: IsIp, host: string): Option<Kind> {
    match Ipv6Groups(isIp, host)
    case None => if NormalizeHost(host) in METADATA_HOSTS then Some(Metadata) else None
    case Some(g) => Some(GroupsKind(g))
  }

  function AddressKind(isIp: IsIp, h: string): Kind {
    if isIp(h) == 4 then (if Ipv4Kind(h).Some? then Ipv4Kind(h).value else Public)
    else if isIp(h) == 6 then (if Ipv6Kind(isIp, h).Some? then Ipv6Kind(isIp, h).value else Public)
    else Public
  }

  predicate IsLocalName(h: string) { h == "localhost" || Text.EndsWith(h, ".localhost") || Text.EndsWith(h, ".local") }

  function HostKind(isIp: IsIp, host: string): Kind {
    var h := NormalizeHost(host);
    if h == [] then NoHost
    else if h in METADATA_HOSTS then Metadata
    else if IsLocalName(h) then (if h == "localhost" || Text.EndsWith(h, ".localhost") then Loopback else PrivateName)
    else AddressKind(isIp, h)
  }
}
