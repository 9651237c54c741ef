/** The CNAME follower of the egress resolver. */
module CnameFollower {
  import opened Wrappers
  import opened Numerals
  import opened EgressNet
  import Text

  /** The WHATWG URL parser: the host name of a URL, if it parses. */
  type UrlHost = string -> Option<string>

  // ----- host names -----

  predicate AllDigits(s: string) { s != [] && forall i :: 0 <= i < |s| ==> Text.IsDigit(s[i]) }

  predicate IsLetter(c: char) { 'a' <= c <= 'z' || 'A' <= c <= 'Z' }

  predicate HasScheme(h: string) {
    var colon := |Before(h, ':')|;
    && 0 < colon < |h| && IsLetter(h[0])
    && forall i :: 0 <= i < colon ==> IsLetter(h[i]) || Text.IsDigit(h[i]) || h[i] in "+.-"
  }

  function Unbracketed(h: string): string {
    var end := |Before(h, ']')|;
    if h != [] && h[0] == '[' && end < |h| then
      var rest := h[end + 1..];
      if rest == [] || (rest[0] == ':' && AllDigits(rest[1..])) then h[1..end] else h
    else h
  }

  function WithoutPort(isIp: IsIp, h: string): string {
    var i := |Before(h, ':')|;
    if 0 < i < |h| && isIp(h) == 0 && ':' !in h[i + 1..] && AllDigits(h[i + 1..]) then h[..i] else h
  }

  /** Host normalisation as the resolver does it; the evidence checker uses `NormalizeHost` instead. */
  function ResolverHost(isIp: IsIp, urlHost: UrlHost, host: string): string {
    var lower := Lower(Text.Trim(host));
    if lower == [] then []
    else if HasScheme(lower) && urlHost(lower).None? then []
    else
      var h := if HasScheme(lower) then urlHost(lower).value else lower;
      WithoutFinalDot(WithoutPort(isIp, Before(Unbracketed(h), '%')))
  }

  predicate IsPlainChar(c: char) { 'a' <= c <= 'z' || '0' <= c <= '9' || c == '-' || c == '_' || c == '.' }

  predicate PlainChars(name: string) { name != [] && forall i :: 0 <= i < |name| ==> IsPlainChar(name[i]) }

  /** An ordinary lower-case host name without a final dot. */
  predicate IsPlain(name: string) { PlainChars(name) && name[|name| - 1] != '.' }

  lemma {:induction false} BeforeAbsent(s: string, c: char)
    requires c !in s
    ensures Before(s, c) == s
  {
    if s != [] {
      BeforeAbsent(s[1..], c);
      assert [s[0]] + s[1..] == s;
    }
  }

  lemma PlainText(name: string)
    requires PlainChars(name)
    ensures Lower(Text.Trim(name)) == name
    ensures Before(name, ':') == name && Before(name, ']') == name && Before(name, '%') == name
    ensures name[0] != '['
  {
    assert forall c :: c in name ==> IsPlainChar(c);
    assert ':' !in name && ']' !in name && '%' !in name;
    BeforeAbsent(name, ':');
    BeforeAbsent(name, ']');
    BeforeAbsent(name, '%');
    Text.TrimmedIsFixed(name);
    assert Lower(name) == name;
  }

  /** On ordinary characters both normalisations only drop one final dot, so they leave a plain name alone. */
  lemma PlainNormalized(isIp: IsIp, urlHost: UrlHost, name: string)
    requires PlainChars(name)
    ensures ResolverHost(isIp, urlHost, name) == NormalizeHost(name) == WithoutFinalDot(name)
    ensures IsPlain(name) ==> WithoutFinalDot(name) == name
  {
    PlainText(name);
    hide Before, Lower, Text.Trim;
  }

  // ----- name records -----

  datatype Names = Names(valid: seq<string>, invalid: seq<string>)

  function Pushed(out: seq<string>, value: string): seq<string> {
    if value == "" || value in out then out else out + [value]
  }

  function NameRecords(isIp: IsIp, urlHost: UrlHost, raws: seq<string>): (n: Names)
    ensures "" !in n.valid
    ensures forall i, j :: 0 <= i < j < |n.valid| ==> n.valid[i] != n.valid[j]
  {
    if raws == [] then Names([], [])
    else
      var last := |raws| - 1;
      var before := NameRecords(isIp, urlHost, raws[..last]);
      var h := ResolverHost(isIp, urlHost, raws[last]);
      if h != "" && isIp(h) == 0 then Names(Pushed(before.valid, h), before.invalid)
      else Names(before.valid, before.invalid + [raws[last]])
  }

  /** An answer is a name if it normalises to something that is no address; the names are those, the rest is invalid. */
  lemma {:induction false} NameRecordsAre(isIp: IsIp, urlHost: UrlHost, raws: seq<string>)
    ensures var n := NameRecords(isIp, urlHost, raws);
            && (forall h :: h in n.valid <==> h != "" && isIp(h) == 0 && exists i :: 0 <= i < |raws| && ResolverHost(isIp, urlHost, raws[i]) == h)
            && (forall r :: r in n.invalid <==> r in raws && (ResolverHost(isIp, urlHost, r) == "" || isIp(ResolverHost(isIp, urlHost, r)) != 0))
  {
    hide ResolverHost;
    if raws != [] {
      var last := |raws| - 1;
      NameRecordsAre(isIp, urlHost, raws[..last]);
      assert raws == raws[..last] + [raws[last]];
      assert forall i :: 0 <= i < last ==> raws[i] == raws[..last][i];
    }
  }

  method NormalizeNameRecords(isIp: IsIp, urlHost: UrlHost, raws: seq<string>)
    returns (names: seq<string>, invalid: seq<string>)
    ensures Names(names, invalid) == NameRecords(isIp, urlHost, raws)
  {
    names, invalid := [], [];
    for i := 0 to |raws|
      invariant Names(names, invalid) == NameRecords(isIp, urlHost, raws[..i])
    {
      assert raws[..i + 1][..i] == raws[..i];
      var h := ResolverHost(isIp, urlHost, raws[i]);
      if h != "" && isIp(h) == 0 { names := Pushed(names, h); }
      else { invalid := invalid + [raws[i]]; }
    }
    assert raws[..|raws|] == raws;
  }

  // ----- the path of first answers -----

  /** What the deterministic provider answers to a CNAME query, flattened, and the same answers cleaned. */
  type Answers = string -> seq<string>
  type Provider = string -> Names

  ghost predicate Cleans(provider: Provider, isIp: IsIp, urlHost: UrlHost, answers: Answers) {
    forall name :: provider(name) == NameRecords(isIp, urlHost, answers(name))
  }

  lemma CleanAnswer(provider: Provider, isIp: IsIp, urlHost: UrlHost, answers: Answers, name: string)
    requires Cleans(provider, isIp, urlHost, answers)
    ensures provider(name) == NameRecords(isIp, urlHost, answers(name)) && "" !in provider(name).valid
  {}

  function Next(provider: Provider, name: string): Option<string> {
    var names := provider(name).valid;
    if names == [] then None else Some(names[0])
  }

  /** The name `k` first answers away from `h`. */
  function Hop(provider: Provider, h: string, k: nat): Option<string> {
    if k == 0 then Some(h)
    else match Hop(provider, h, k - 1) case None => None case Some(name) => Next(provider, name)
  }

  predicate EndsAt(provider: Provider, h: string, k: nat) {
    Hop(provider, h, k).Some? && Next(provider, Hop(provider, h, k).value).None?
  }

  /** `h` and the `k` names after it. */
  function Path(provider: Provider, h: string, k: nat): seq<string>
    requires Hop(provider, h, k).Some?
  {
    if k == 0 then [h] else Path(provider, h, k - 1) + [Hop(provider, h, k).value]
  }

  predicate NoRepeat(names: seq<string>) { forall i, j :: 0 <= i < j < |names| ==> names[i] != names[j] }

  function InvalidOn(provider: Provider, h: string, k: nat): seq<string>
    requires Hop(provider, h, k).Some?
  {
    (if k == 0 then [] else InvalidOn(provider, h, k - 1)) + provider(Hop(provider, h, k).value).invalid
  }

  lemma {:induction false} PathEntries(provider: Provider, h: string, k: nat)
    requires Hop(provider, h, k).Some?
    ensures |Path(provider, h, k)| == k + 1
    ensures forall i: nat :: i <= k ==> Hop(provider, h, i) == Some(Path(provider, h, k)[i])
  {
    if k > 0 { PathEntries(provider, h, k - 1); }
  }

  /** Answers are deterministic, so a name seen twice is followed by the same names again. */
  lemma {:induction false} HopsRepeat(provider: Provider, h: string, i: nat, j: nat, n: nat)
    requires Hop(provider, h, i) == Hop(provider, h, j)
    ensures Hop(provider, h, i + n) == Hop(provider, h, j + n)
  {
    if n > 0 { HopsRepeat(provider, h, i, j, n - 1); }
  }

  lemma {:induction false} NothingAfterEnd(provider: Provider, h: string, k: nat, n: nat)
    requires EndsAt(provider, h, k) && n > k
    ensures Hop(provider, h, n).None?
  {
    if n > k + 1 { NothingAfterEnd(provider, h, k, n - 1); }
  }

  lemma {:induction false} HopsBefore(provider: Provider, h: string, k: nat, n: nat)
    requires k <= n && Hop(provider, h, n).Some?
    ensures Hop(provider, h, k).Some?
  {
    if k < n { HopsBefore(provider, h, k, n - 1); }
  }

  predicate Repeats(provider: Provider, h: string, i: nat, j: nat) {
    i < j && Hop(provider, h, j).Some? && Hop(provider, h, i) == Hop(provider, h, j)
  }

  ghost predicate RepeatsWithin(provider: Provider, h: string, n: nat) {
    exists i: nat, j: nat :: j <= n && Repeats(provider, h, i, j)
  }

  /** A path that comes back to a name never ends. */
  lemma EndOrRepeat(provider: Provider, h: string, k: nat, i: nat, j: nat)
    requires Repeats(provider, h, i, j)
    ensures !EndsAt(provider, h, k)
  {
    if Hop(provider, h, k).Some? {
      if j > k {
        HopsBefore(provider, h, k + 1, j);
      } else {
        HopsRepeat(provider, h, i, j, k + 1 - j);
        HopsBefore(provider, h, i + (k + 1 - j), k);
      }
      assert Hop(provider, h, k + 1).Some?;
    }
  }

  lemma EndingPathHasNoRepeat(provider: Provider, h: string, k: nat, n: nat)
    requires EndsAt(provider, h, k)
    ensures NoRepeat(Path(provider, h, k)) && !RepeatsWithin(provider, h, n)
  {
    PathEntries(provider, h, k);
    forall i: nat, j: nat ensures !Repeats(provider, h, i, j) {
      if Repeats(provider, h, i, j) { EndOrRepeat(provider, h, k, i, j); }
    }
    var path := Path(provider, h, k);
    forall i: nat, j: nat | i < j < |path| ensures path[i] != path[j] {
      assert !Repeats(provider, h, i, j);
    }
  }

  /** The names visited so far, as the loop knows them. */
  predicate Visited(provider: Provider, h: string, names: seq<string>) {
    && NoRepeat(names)
    && (forall k: nat :: k < |names| ==> Hop(provider, h, k) == Some(names[k]))
    && (forall k: nat :: k < |names| ==> !EndsAt(provider, h, k))
  }

  lemma NoRepeatVisited(provider: Provider, h: string, names: seq<string>)
    requires |names| > 0 && NoRepeat(names)
    requires forall k: nat :: k < |names| ==> Hop(provider, h, k) == Some(names[k])
    ensures !RepeatsWithin(provider, h, |names| - 1)
    ensures Hop(provider, h, |names| - 1).Some? && names == Path(provider, h, |names| - 1)
  {
    PathEntries(provider, h, |names| - 1);
    forall i: nat, j: nat | j <= |names| - 1 ensures !Repeats(provider, h, i, j) {
      if i < j { assert names[i] != names[j]; }
    }
  }

  lemma VisitStep(provider: Provider, h: string, names: seq<string>, name: string)
    requires Visited(provider, h, names) && Hop(provider, h, |names|) == Some(name) && name !in names
    ensures Hop(provider, h, |names|).Some? && names + [name] == Path(provider, h, |names|)
    ensures NoRepeat(names + [name]) && !RepeatsWithin(provider, h, |names|)
    ensures EndsAt(provider, h, |names|) <==> provider(name).valid == []
    ensures provider(name).valid != []
            ==> Visited(provider, h, names + [name]) && Hop(provider, h, |names| + 1) == Some(provider(name).valid[0])
  {
    var all := names + [name];
    assert NoRepeat(all);
    assert forall k: nat :: k < |all| ==> Hop(provider, h, k) == Some(all[k]);
    NoRepeatVisited(provider, h, all);
  }

  lemma BackAgain(provider: Provider, h: string, names: seq<string>, name: string, maxDepth: nat)
    requires Visited(provider, h, names) && Hop(provider, h, |names|) == Some(name) && name in names
    requires |names| < maxDepth
    ensures RepeatsWithin(provider, h, maxDepth - 1)
    ensures forall k: nat :: k < maxDepth ==> !EndsAt(provider, h, k)
  {
    var i :| 0 <= i < |names| && names[i] == name;
    assert Repeats(provider, h, i, |names|);
    forall k: nat ensures !EndsAt(provider, h, k) { EndOrRepeat(provider, h, k, i, |names|); }
  }

  lemma EmptyVisit(provider: Provider, h: string)
    ensures Visited(provider, h, []) && NoRepeat([]) && Hop(provider, h, 0) == Some(h)
  {}

  lemma NoneEnded(provider: Provider, h: string, names: seq<string>)
    requires Visited(provider, h, names)
    ensures forall k: nat :: k < |names| ==> !EndsAt(provider, h, k)
  {}

  // ----- the follower -----

  datatype Fault = MissingHost | Loop | TooLong

  /** The chain part of the finished evidence. */
  datatype Evidence = Evidence(host: string, chain: seq<string>, invalid: seq<string>, canonicalName: string)

  /** A limit that is given and not negative is raised to one; otherwise the default holds. */
  function DepthLimit(option: Option<int>): (d: nat)
    ensures d >= 1
    ensures option.None? || option.value < 0 ==> d == 16
    ensures option.Some? && option.value >= 1 ==> d == option.value
  {
    if option.None? || option.value < 0 then 16 else if option.value < 1 then 1 else option.value
  }

  datatype Walk = Walk(chain: seq<string>, last: string)

  /** The path ends after `k` hops, at `walk.last`; the chain is empty or that whole path, without repeats. */
  predicate WalkedTo(provider: Provider, h: string, k: nat, walk: Walk, invalid: seq<string>) {
    && EndsAt(provider, h, k) && Hop(provider, h, k) == Some(walk.last)
    && walk.chain == (if k == 0 then [] else Path(provider, h, k))
    && NoRepeat(walk.chain) && invalid == InvalidOn(provider, h, k)
  }

  /** The loop's state before the query at depth `|visited|`. */
  predicate Walking(provider: Provider, h: string, visited: seq<string>, current: string, chain: seq<string>, invalid: seq<string>) {
    && Visited(provider, h, visited) && Hop(provider, h, |visited|) == Some(current)
    && (current !in visited ==> chain == visited + [current])
    && (if visited == [] then invalid == []
        else Hop(provider, h, |visited| - 1).Some? && invalid == InvalidOn(provider, h, |visited| - 1))
  }

  lemma WalkStarts(provider: Provider, h: string)
    ensures Walking(provider, h, [], h, [h], [])
  {}

  lemma WalkStep(provider: Provider, h: string, visited: seq<string>, current: string, chain: seq<string>, invalid: seq<string>)
    requires Walking(provider, h, visited, current, chain, invalid)
    requires current !in visited && provider(current).valid != [] && provider(current).valid[0] != ""
    ensures var next := provider(current).valid[0];
            Walking(provider, h, visited + [current], next, Pushed(chain, next), invalid + provider(current).invalid)
    ensures !RepeatsWithin(provider, h, |visited|)
    ensures forall k: nat :: k <= |visited| ==> !EndsAt(provider, h, k)
  {
    VisitStep(provider, h, visited, current);
    hide Visited, NoRepeat, RepeatsWithin;
    forall k: nat | k <= |visited| ensures !EndsAt(provider, h, k) {
      if k < |visited| { NoneEnded(provider, h, visited); }
    }
    hide EndsAt, Path;
    assert chain == visited + [current];
  }

  lemma WalkEnds(provider: Provider, h: string, visited: seq<string>, current: string, chain: seq<string>,
                 invalid: seq<string>, maxDepth: nat)
    requires Walking(provider, h, visited, current, chain, invalid) && |visited| < maxDepth
    requires current !in visited && provider(current).valid == []
    ensures WalkedTo(provider, h, |visited|, Walk(if visited == [] then [] else chain, current),
                     invalid + provider(current).invalid)
    ensures EndsAt(provider, h, |visited|)
    ensures !RepeatsWithin(provider, h, maxDepth - 1)
  {
    VisitStep(provider, h, visited, current);
    EndingPathHasNoRepeat(provider, h, |visited|, maxDepth - 1);
    EmptyVisit(provider, h);
    hide Visited, NoRepeat, RepeatsWithin, Path;
  }

  /**
  The loop of the follower from an already normalised host: it succeeds exactly when the path ends early enough,
  and otherwise says whether a name came back.
  */
  method Follow(isIp: IsIp, urlHost: UrlHost, answers: Answers, h: string, maxDepth: nat, ghost provider: Provider)
    returns (r: Result<Walk, Fault>, invalid: seq<string>, queries: nat)
    requires maxDepth >= 1 && Cleans(provider, isIp, urlHost, answers)
    ensures queries <= maxDepth
    ensures r.Ok? ==> queries >= 1 && WalkedTo(provider, h, queries - 1, r.value, invalid)
    ensures r == Err(Loop) <==> RepeatsWithin(provider, h, maxDepth - 1)
    ensures r != Err(MissingHost)
    ensures r.Ok? <==> exists k: nat :: k < maxDepth && EndsAt(provider, h, k)
  {
    WalkStarts(provider, h);
    EmptyVisit(provider, h);
    hide Walking, WalkedTo, Visited, NoRepeat, Repeats, RepeatsWithin, Path, EndsAt, Hop, Next, InvalidOn, NameRecords, Cleans, Pushed;
    var seen: set<string> := {};
    var chain := [h];
    var current := h;
    var followed := false;
    ghost var visited: seq<string> := [];
    invalid := [];
    queries := 0;
    for depth := 0 to maxDepth
      invariant depth < maxDepth && queries == depth && followed == (depth > 0)
      invariant |visited| == depth && Walking(provider, h, visited, current, chain, invalid)
      invariant forall s :: s in seen <==> s in visited
    {
      if current in seen {
        BackAgain(provider, h, visited, current, maxDepth) by { WalkingMeans(provider, h, visited, current, chain, invalid); }
        return Err(Loop), invalid, queries;
      }
      seen := seen + {current};
      var names, bad := NormalizeNameRecords(isIp, urlHost, answers(current));
      CleanAnswer(provider, isIp, urlHost, answers, current);
      queries := queries + 1;
      if names == [] {
        WalkEnds(provider, h, visited, current, chain, invalid, maxDepth);
        invalid := invalid + bad;
        break;
      }
      assert names[0] in names;
      WalkStep(provider, h, visited, current, chain, invalid);
      invalid := invalid + bad;
      visited := visited + [current];
      current := names[0];
      chain := Pushed(chain, current);
      followed := true;
      if depth == maxDepth - 1 {
        return Err(TooLong), invalid, queries;
      }
    }
    r := Ok(Walk(if followed then chain else [], current));
  }

  lemma WalkingMeans(provider: Provider, h: string, visited: seq<string>, current: string, chain: seq<string>, invalid: seq<string>)
    requires Walking(provider, h, visited, current, chain, invalid)
    ensures Visited(provider, h, visited) && Hop(provider, h, |visited|) == Some(current)
  {}

  // ----- the evidence -----

  /** The evidence for a path that ends after `k` hops. */
  function Finished(isIp: IsIp, urlHost: UrlHost, provider: Provider, h: string, k: nat): Evidence
    requires EndsAt(provider, h, k)
  {
    var last := Hop(provider, h, k).value;
    Evidence(ResolverHost(isIp, urlHost, h), if k == 0 then [] else Path(provider, h, k), InvalidOn(provider, h, k),
             ResolverHost(isIp, urlHost, if last == "" then h else last))
  }

  /** The evidence names the host it is about, and, on ordinary characters, the end of its path without a final dot. */
  lemma FinishedNames(isIp: IsIp, urlHost: UrlHost, provider: Provider, h: string, k: nat)
    requires EndsAt(provider, h, k) && PlainChars(h) && PlainChars(Hop(provider, h, k).value)
    ensures var e := Finished(isIp, urlHost, provider, h, k);
            e.host == WithoutFinalDot(h) && e.canonicalName == WithoutFinalDot(Hop(provider, h, k).value)
            && (e.chain == [] <==> k == 0) && (k > 0 ==> e.chain == Path(provider, h, k)) && e.invalid == InvalidOn(provider, h, k)
  {
    PlainNormalized(isIp, urlHost, h);
    PlainNormalized(isIp, urlHost, Hop(provider, h, k).value);
    hide ResolverHost, InvalidOn, NormalizeHost;
    PathEntries(provider, h, k);
  }

  method ResolveHost(isIp: IsIp, urlHost: UrlHost, answers: Answers, host: string, limit: Option<int>, ghost provider: Provider)
    returns (r: Result<Evidence, Fault>)
    requires Cleans(provider, isIp, urlHost, answers)
    ensures ResolverHost(isIp, urlHost, host) == "" <==> r == Err(MissingHost)
    ensures var h := ResolverHost(isIp, urlHost, ResolverHost(isIp, urlHost, host));
            r.Ok? ==> exists k: nat :: k < DepthLimit(limit) && EndsAt(provider, h, k)
                                       && r.value == Finished(isIp, urlHost, provider, h, k)
    ensures var h := ResolverHost(isIp, urlHost, ResolverHost(isIp, urlHost, host));
            ResolverHost(isIp, urlHost, host) != ""
            ==> (r.Ok? <==> exists k: nat :: k < DepthLimit(limit) && EndsAt(provider, h, k))
  {
    hide ResolverHost, EndsAt, Hop, Path, InvalidOn, Cleans;
    var given := ResolverHost(isIp, urlHost, host);
    if given == "" { return Err(MissingHost); }
    var h := ResolverHost(isIp, urlHost, given);
    var walk, invalid, queries := Follow(isIp, urlHost, answers, h, DepthLimit(limit), provider);
    if walk.Err? { return Err(walk.error); }
    var last := walk.value.last;
    r := Ok(Evidence(ResolverHost(isIp, urlHost, h), walk.value.chain, invalid,
                     ResolverHost(isIp, urlHost, if last == "" then h else last)));
    assert WalkedTo(provider, h, queries - 1, walk.value, invalid);
    assert r.value == Finished(isIp, urlHost, provider, h, queries - 1);
  }
}
