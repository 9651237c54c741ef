/**
The evidence checker on what the CNAME follower finds. The checker normalises the chain and the canonical name once
more on the way in, with its own normalisation, and then runs its structural tests.
*/
module CnameEvidence {
  import opened Wrappers
  import opened Numerals
  import opened EgressNet
  import opened CnameFollower
  import Text

  // ----- the intake and the tests -----

  function AddPart(isIp: IsIp, acc: Names, part: string): Names {
    var raw := Text.Trim(part);
    var h := NormalizeHost(raw);
    if raw == "" then acc
    else if h == "" || isIp(h) != 0 then Names(acc.valid, acc.invalid + [raw])
    else Names(Pushed(acc.valid, h), acc.invalid)
  }

  function AddParts(isIp: IsIp, acc: Names, parts: seq<string>): Names
    decreases |parts|
  {
    if parts == [] then acc else AddParts(isIp, AddPart(isIp, acc, parts[0]), parts[1..])
  }

  /** The checker's host list of a chain: comma-separated parts normalised, duplicates dropped. */
  function HostList(isIp: IsIp, items: seq<string>): Names {
    if items == [] then Names([], [])
    else AddParts(isIp, HostList(isIp, items[..|items| - 1]), Text.Split(items[|items| - 1], ','))
  }

  function NotEmpty(chain: seq<string>): seq<string> {
    if chain == [] then [] else (if chain[0] == "" then [] else [chain[0]]) + NotEmpty(chain[1..])
  }

  /** The structural tests on a chain: no invalid name, starts at the host, ends at the canonical name. */
  predicate ChainTests(host: string, cnameChain: seq<string>, invalid: seq<string>, canonicalName: string) {
    var chain, canonical := NotEmpty(cnameChain), NormalizeHost(canonicalName);
    && invalid == []
    && (chain == []
        || (chain[0] == NormalizeHost(host) && (canonical == "" || chain[|chain| - 1] == canonical)))
  }

  /** The tests as the checker reaches them, behind its intake. */
  predicate CheckedChain(isIp: IsIp, host: string, e: Evidence) {
    var chain := HostList(isIp, e.chain);
    ChainTests(host, chain.valid, chain.invalid + e.invalid, NormalizeHost(e.canonicalName))
  }

  // ----- the intake on ordinary characters -----

  /** A name without its final dot, which on ordinary characters is all that normalisation changes. */
  function Short(name: string): string { WithoutFinalDot(name) }

  function Shorts(names: seq<string>): seq<string> {
    seq(|names|, i requires 0 <= i < |names| => Short(names[i]))
  }

  predicate Ordinary(names: seq<string>) { forall i :: 0 <= i < |names| ==> PlainChars(names[i]) }

  /** Still a host name, and no address, once its final dot is dropped. */
  predicate ReadsAsName(isIp: IsIp, name: string) { Short(name) != "" && isIp(Short(name)) == 0 }

  predicate AllRead(isIp: IsIp, names: seq<string>) {
    forall i :: 0 <= i < |names| ==> ReadsAsName(isIp, names[i])
  }

  /** The first occurrences, in order. */
  function Firsts(names: seq<string>): (r: seq<string>)
    ensures forall s :: s in r <==> s in names && s != ""
  {
    if names == [] then [] else Pushed(Firsts(names[..|names| - 1]), names[|names| - 1])
  }

  lemma OrdinaryAlone(name: string)
    requires PlainChars(name)
    ensures name != "" && Text.Trim(name) == name && NormalizeHost(name) == Short(name) && Text.Split(name, ',') == [name]
  {
    PlainText(name);
    assert forall c :: c in name ==> IsPlainChar(c);
    Text.SplitSingle(name, ',');
    Text.TrimmedIsFixed(name);
  }

  lemma OnePart(isIp: IsIp, acc: Names, name: string)
    requires PlainChars(name)
    ensures AddParts(isIp, acc, Text.Split(name, ','))
            == if ReadsAsName(isIp, name) then Names(Pushed(acc.valid, Short(name)), acc.invalid)
               else Names(acc.valid, acc.invalid + [name])
  {
    hide Text.Trim, Text.Split, PlainChars, NormalizeHost, Pushed, WithoutFinalDot;
    OrdinaryAlone(name);
    assert [name][1..] == [];
    assert AddParts(isIp, AddPart(isIp, acc, name), []) == AddPart(isIp, acc, name);
  }

  /** Nothing is invalid exactly when every name still reads as one, and then the list is their first occurrences. */
  lemma {:induction false} IntakeOfOrdinary(isIp: IsIp, names: seq<string>)
    requires Ordinary(names)
    ensures HostList(isIp, names).invalid == [] <==> AllRead(isIp, names)
    ensures AllRead(isIp, names) ==> HostList(isIp, names).valid == Firsts(Shorts(names))
  {
    if names != [] {
      var last := |names| - 1;
      var front := names[..last];
      IntakeOfOrdinary(isIp, front);
      OnePart(isIp, HostList(isIp, front), names[last]);
      hide PlainChars, Text.Split, AddParts, ReadsAsName, Short, Pushed;
      AllReadFront(isIp, names);
      assert Shorts(names)[..last] == Shorts(front);
    }
  }

  lemma AllReadFront(isIp: IsIp, names: seq<string>)
    requires names != []
    ensures var last := |names| - 1; AllRead(isIp, names) <==> AllRead(isIp, names[..last]) && ReadsAsName(isIp, names[last])
  {
    hide ReadsAsName;
    var front := names[..|names| - 1];
    assert forall i :: 0 <= i < |front| ==> front[i] == names[i];
  }

  // ----- where the first occurrences begin and end -----

  lemma {:induction false} FirstsBegin(names: seq<string>)
    requires names != [] && "" !in names
    ensures Firsts(names) != [] && Firsts(names)[0] == names[0]
  {
    if |names| == 1 {
      assert names[..0] == [];
      assert Firsts([]) == [] && names[0] in names;
    } else {
      var front := names[..|names| - 1];
      assert front[0] == names[0] && forall s :: s in front ==> s in names;
      FirstsBegin(front);
    }
  }

  /** After the first `y` nothing new appears in `names`. */
  predicate NothingNewAfter(names: seq<string>, y: string) {
    forall i, j :: 0 <= i < j < |names| && names[i] == y ==> names[j] in names[..j]
  }

  lemma NothingNewStep(names: seq<string>, y: string)
    requires names != []
    ensures var last := |names| - 1;
            NothingNewAfter(names, y)
            <==> NothingNewAfter(names[..last], y) && (y in names[..last] ==> names[last] in names[..last])
  {
    var last := |names| - 1;
    var front := names[..last];
    assert forall j :: 0 <= j <= last ==> front[..j] == names[..j];
    if NothingNewAfter(names, y) && y in front {
      var i :| 0 <= i < last && front[i] == y;
      assert names[i] == y;
    }
  }

  /** A name is the last first occurrence exactly when nothing new appears after its first one. */
  lemma {:induction false} FirstsEnd(names: seq<string>, y: string)
    requires y in names && "" !in names
    ensures Firsts(names) != []
    ensures Firsts(names)[|Firsts(names)| - 1] == y <==> NothingNewAfter(names, y)
  {
    var last := |names| - 1;
    var front, z := names[..last], names[last];
    assert names == front + [z] && z in names;
    NothingNewStep(names, y);
    if z in front {
      assert forall s :: s in front ==> s in names;
      FirstsEnd(front, y);
    } else {
      assert Firsts(names) == Firsts(front) + [z];
      if z == y { NotThereIsQuiet(front, y); }
    }
  }

  lemma NotThereIsQuiet(names: seq<string>, y: string)
    requires y !in names
    ensures NothingNewAfter(names, y)
  {}

  // ----- exactly which paths pass -----

  /**
  The chain keeps its end: nothing new follows the first place of the last name (a dotted twin counts as the same),
  and that name ends with at most one dot. A last name of two or three dots leaves no canonical name to compare.
  */
  predicate EndsWell(path: seq<string>)
    requires path != []
  {
    var last := path[|path| - 1];
    || last == ".." || last == "..."
    || (!Text.EndsWith(last, "..") && NothingNewAfter(Shorts(path), Short(last)))
  }

  lemma DotsShow(last: string)
    requires last != "" && Short(last) != ""
    ensures Short(Short(Short(last))) == "" <==> last == ".." || last == "..."
    ensures Text.EndsWith(last, "..") <==> Short(last)[|Short(last)| - 1] == '.'
    ensures !Text.EndsWith(last, "..") ==> Short(Short(Short(last))) == Short(last)
    ensures Text.EndsWith(last, "..") ==> last == Short(last) + "." && Short(Short(Short(last))) != Short(last)
  {
    var n := |last|;
    if n >= 2 { assert last[n - 2..] == [last[n - 2], last[n - 1]]; }
    if last[n - 1] == '.' {
      assert last == Short(last) + ".";
      if last[n - 2] == '.' {
        if n == 2 { assert last == ".."; }
        if n == 3 && last[0] == '.' { assert last == "..."; }
      }
    }
  }

  /** Names that keep a final dot come from one name only. */
  lemma OneLongName(a: string, b: string)
    requires a != "" && b != "" && Short(a) == Short(b) && Short(a) != "" && Short(a)[|Short(a)| - 1] == '.'
    ensures a == b
  {
    assert a == Short(a) + "." && b == Short(b) + ".";
  }

  lemma ShortOrdinary(name: string)
    requires name == "" || PlainChars(name)
    ensures NormalizeHost(name) == Short(name) && (Short(name) == "" || PlainChars(Short(name)))
  {
    ShortStaysPlain(name);
    hide Short, Lower, Text.Trim, Before, PlainChars;
    if name == "" { NothingNormalized(); } else { OrdinaryAlone(name); }
  }

  lemma NothingNormalized()
    ensures NormalizeHost("") == "" == Short("")
  {
    assert Lower(Text.Trim("")) == "";
  }

  lemma ShortStaysPlain(name: string)
    requires name == "" || PlainChars(name)
    ensures Short(name) == "" || PlainChars(Short(name))
  {}

  /** The canonical name the tests compare with: the last name, normalised by the follower and twice by the checker. */
  lemma CanonicalIsShort(isIp: IsIp, urlHost: UrlHost, last: string)
    requires PlainChars(last)
    ensures NormalizeHost(NormalizeHost(ResolverHost(isIp, urlHost, last))) == Short(Short(Short(last)))
  {
    PlainNormalized(isIp, urlHost, last);
    hide ResolverHost, NormalizeHost;
    ShortOrdinary(last);
    ShortOrdinary(Short(last));
    ShortOrdinary(Short(Short(last)));
  }

  /** The last test, on a path without repeats whose names all still read as names. */
  lemma EndTest(isIp: IsIp, path: seq<string>)
    requires path != [] && NoRepeat(path) && Ordinary(path) && AllRead(isIp, path)
    ensures var firsts, canonical := Firsts(Shorts(path)), Short(Short(Short(path[|path| - 1])));
            firsts != [] && (canonical in {"", firsts[|firsts| - 1]} <==> EndsWell(path))
  {
    var k := |path| - 1;
    var last := path[k];
    var shorts := Shorts(path);
    assert shorts[k] == Short(last) && forall i :: 0 <= i <= k ==> ReadsAsName(isIp, path[i]);
    assert "" !in shorts;
    DotsShow(last);
    FirstsEnd(shorts, Short(last));
    if Text.EndsWith(last, "..") { LongNameIsLast(isIp, path); }
  }

  lemma LongNameIsLast(isIp: IsIp, path: seq<string>)
    requires path != [] && NoRepeat(path) && Ordinary(path) && AllRead(isIp, path)
    requires Text.EndsWith(path[|path| - 1], "..")
    ensures NothingNewAfter(Shorts(path), Short(path[|path| - 1]))
  {
    var k := |path| - 1;
    DotsShow(path[k]);
    forall i | 0 <= i < k ensures Shorts(path)[i] != Short(path[k]) {
      if Short(path[i]) == Short(path[k]) { OneLongName(path[i], path[k]); }
    }
  }

  lemma {:induction false} NotEmptyIsSame(chain: seq<string>)
    requires "" !in chain
    ensures NotEmpty(chain) == chain
  {
    if chain != [] {
      assert chain[0] in chain;
      NotEmptyIsSame(chain[1..]);
      assert [chain[0]] + chain[1..] == chain;
    }
  }

  lemma TestsOnChain(host: string, chain: seq<string>, invalid: seq<string>, canonicalName: string)
    requires NotEmpty(chain) == chain
    ensures ChainTests(host, chain, invalid, canonicalName)
            <==> (invalid == []
                  && (chain == []
                      || (chain[0] == NormalizeHost(host) && NormalizeHost(canonicalName) in {"", chain[|chain| - 1]})))
  {
    hide NormalizeHost, NotEmpty;
  }

  /** The chain of a path through intake and tests. */
  lemma PathPassesIff(isIp: IsIp, urlHost: UrlHost, host: string, path: seq<string>, invalid: seq<string>)
    requires path != [] && NoRepeat(path) && Ordinary(path)
    ensures CheckedChain(isIp, host, Evidence(path[0], path, invalid, ResolverHost(isIp, urlHost, path[|path| - 1])))
            <==> (invalid == [] && AllRead(isIp, path) && NormalizeHost(host) == Short(path[0]) && EndsWell(path))
  {
    hide ResolverHost, NormalizeHost, NoRepeat, Ordinary, AllRead, EndsWell, HostList, Firsts, ChainTests, Short, NotEmpty;
    var last := path[|path| - 1];
    var canonical := ResolverHost(isIp, urlHost, last);
    assert PlainChars(last) by { OrdinaryAt(path, |path| - 1); }
    IntakeOfOrdinary(isIp, path);
    CanonicalIsShort(isIp, urlHost, last);
    var chain := HostList(isIp, path);
    if AllRead(isIp, path) {
      EndTest(isIp, path);
      BeginTest(isIp, path);
      TestsOnChain(host, chain.valid, chain.invalid + invalid, NormalizeHost(canonical));
    } else {
      BadIntakeFails(host, chain.valid, chain.invalid + invalid, NormalizeHost(canonical));
    }
  }

  lemma OrdinaryAt(path: seq<string>, i: nat)
    requires Ordinary(path) && i < |path|
    ensures PlainChars(path[i])
  {}

  lemma BadIntakeFails(host: string, chain: seq<string>, invalid: seq<string>, canonicalName: string)
    requires invalid != []
    ensures !ChainTests(host, chain, invalid, canonicalName)
  {}

  lemma BeginTest(isIp: IsIp, path: seq<string>)
    requires path != [] && AllRead(isIp, path)
    ensures var firsts := Firsts(Shorts(path)); firsts != [] && firsts[0] == Short(path[0]) && NotEmpty(firsts) == firsts
  {
    assert forall i :: 0 <= i < |path| ==> ReadsAsName(isIp, path[i]);
    assert "" !in Shorts(path);
    FirstsBegin(Shorts(path));
    NotEmptyIsSame(Firsts(Shorts(path)));
  }

  lemma PathEnds(provider: Provider, h: string, k: nat)
    requires Hop(provider, h, k).Some?
    ensures var path := Path(provider, h, k);
            |path| == k + 1 && path[0] == h && path[k] == Hop(provider, h, k).value
  {
    PathEntries(provider, h, k);
    assert Hop(provider, h, 0) == Some(Path(provider, h, k)[0]);
    assert Hop(provider, h, k) == Some(Path(provider, h, k)[k]);
  }

  /**
  Exactly which evidence of the follower the checker accepts, for every path that ends, over ordinary characters: no
  answer was invalid, and if a CNAME was followed, every name still reads as one without its final dot, the path
  starts at the host, and it ends well.
  */
  lemma CheckedChainIff(isIp: IsIp, urlHost: UrlHost, provider: Provider, host: string, h: string, k: nat)
    requires EndsAt(provider, h, k) && Ordinary(Path(provider, h, k))
    ensures var path := Path(provider, h, k);
            CheckedChain(isIp, host, Finished(isIp, urlHost, provider, h, k))
            <==> (InvalidOn(provider, h, k) == []
                  && (k == 0 || (AllRead(isIp, path) && NormalizeHost(host) == Short(h) && path != [] && EndsWell(path))))
  {
    PathEnds(provider, h, k);
    EndingPathHasNoRepeat(provider, h, k, k);
    var path, invalid := Path(provider, h, k), InvalidOn(provider, h, k);
    hide EndsWell, AllRead, ChainTests, HostList, ResolverHost, NormalizeHost, Path, Hop, EndsAt, InvalidOn, NoRepeat, Short;
    OrdinaryAt(path, k);
    assert path[k] != "" by { OrdinaryAlone(path[k]); }
    var e := Finished(isIp, urlHost, provider, h, k);
    if k == 0 {
      NoChainPasses(isIp, host, e);
    } else {
      PathPassesIff(isIp, urlHost, host, path, invalid);
      HostFieldIsIgnored(isIp, host, e, path[0]);
    }
  }

  lemma NoChainPasses(isIp: IsIp, host: string, e: Evidence)
    requires e.chain == []
    ensures CheckedChain(isIp, host, e) <==> e.invalid == []
  {}

  lemma HostFieldIsIgnored(isIp: IsIp, host: string, e: Evidence, other: string)
    ensures CheckedChain(isIp, host, e) == CheckedChain(isIp, host, Evidence(other, e.chain, e.invalid, e.canonicalName))
  {}

  // ----- paths that pass and paths that do not -----

  predicate PlainHosts(isIp: IsIp, names: seq<string>) {
    forall i :: 0 <= i < |names| ==> IsPlain(names[i]) && isIp(names[i]) == 0
  }

  lemma {:induction false} PlainRecords(isIp: IsIp, urlHost: UrlHost, raws: seq<string>)
    requires PlainHosts(isIp, raws)
    ensures var n := NameRecords(isIp, urlHost, raws); n.invalid == [] && PlainHosts(isIp, n.valid)
  {
    if raws != [] {
      var last := |raws| - 1;
      PlainRecords(isIp, urlHost, raws[..last]);
      PlainStays(isIp, urlHost, raws[last]);
      hide ResolverHost, IsPlain;
    }
  }

  lemma PlainStays(isIp: IsIp, urlHost: UrlHost, name: string)
    requires IsPlain(name)
    ensures ResolverHost(isIp, urlHost, name) == NormalizeHost(name) == Short(name) == name != "" && PlainChars(name)
    ensures !Text.EndsWith(name, "..")
  {
    PlainNormalized(isIp, urlHost, name);
  }

  lemma {:induction false} PlainPath(isIp: IsIp, provider: Provider, h: string, k: nat)
    requires IsPlain(h) && isIp(h) == 0 && forall name :: provider(name).invalid == [] && PlainHosts(isIp, provider(name).valid)
    requires Hop(provider, h, k).Some?
    ensures PlainHosts(isIp, Path(provider, h, k)) && InvalidOn(provider, h, k) == []
  {
    hide IsPlain;
    if k > 0 {
      PlainPath(isIp, provider, h, k - 1);
      assert PlainHosts(isIp, provider(Hop(provider, h, k - 1).value).valid);
    }
  }

  lemma PlainEndsWell(isIp: IsIp, urlHost: UrlHost, path: seq<string>)
    requires path != [] && PlainHosts(isIp, path) && NoRepeat(path)
    ensures Ordinary(path) && AllRead(isIp, path) && EndsWell(path)
  {
    forall i | 0 <= i < |path| ensures Shorts(path)[i] == path[i] && PlainChars(path[i]) && ReadsAsName(isIp, path[i]) {
      PlainStays(isIp, urlHost, path[i]);
    }
    PlainStays(isIp, urlHost, path[|path| - 1]);
  }

  lemma PlainAnswers(isIp: IsIp, urlHost: UrlHost, answers: Answers, provider: Provider)
    requires Cleans(provider, isIp, urlHost, answers) && forall name :: PlainHosts(isIp, answers(name))
    ensures forall name :: provider(name).invalid == [] && PlainHosts(isIp, provider(name).valid)
  {
    forall name ensures provider(name).invalid == [] && PlainHosts(isIp, provider(name).valid) {
      PlainRecords(isIp, urlHost, answers(name));
      CleanAnswer(provider, isIp, urlHost, answers, name);
    }
  }

  /** With plain names everywhere the follower's evidence always passes, for every path that ends. */
  lemma PlainNamesPass(isIp: IsIp, urlHost: UrlHost, answers: Answers, provider: Provider, host: string, k: nat)
    requires Cleans(provider, isIp, urlHost, answers)
    requires IsPlain(host) && isIp(host) == 0 && forall name :: PlainHosts(isIp, answers(name))
    requires EndsAt(provider, host, k)
    ensures CheckedChain(isIp, host, Finished(isIp, urlHost, provider, host, k))
  {
    PlainAnswers(isIp, urlHost, answers, provider);
    PlainPath(isIp, provider, host, k);
    EndingPathHasNoRepeat(provider, host, k, k);
    PathEnds(provider, host, k);
    hide *;
    PlainEndsWell(isIp, urlHost, Path(provider, host, k));
    PlainStays(isIp, urlHost, host);
    CheckedChainIff(isIp, urlHost, provider, host, host, k);
  }

  lemma OneRecord(isIp: IsIp, urlHost: UrlHost, raw: string)
    requires PlainChars(raw) && ReadsAsName(isIp, raw)
    ensures NameRecords(isIp, urlHost, [raw]) == Names([Short(raw)], [])
  {
    PlainNormalized(isIp, urlHost, raw);
    hide ResolverHost;
    assert [raw][..0] == [];
    assert NameRecords(isIp, urlHost, []) == Names([], []);
  }

  /** A plain name with one dot, two dots and three dots behind it. */
  lemma WithDots(b: string, one: string, two: string, three: string)
    requires IsPlain(b) && one == b + "." && two == one + "." && three == two + "."
    ensures PlainChars(b) && PlainChars(one) && PlainChars(two) && PlainChars(three)
    ensures Short(b) == b && Short(one) == b && Short(two) == one && Short(three) == two && b != "" && one != ""
    ensures Text.EndsWith(two, "..") && !Text.EndsWith(one, "..") && two != ".." && two != "..." && one != ".." && one != "..."
  {
    assert b[|b| - 1] != '.' && IsPlainChar(b[0]) && two[|b| - 1] == b[|b| - 1];
  }

  /** What a provider that cleans one answer says. */
  lemma OneAnswer(isIp: IsIp, urlHost: UrlHost, answers: Answers, provider: Provider, name: string, raw: string, next: string)
    requires Cleans(provider, isIp, urlHost, answers) && answers(name) == [raw]
    requires PlainChars(raw) && Short(raw) == next != "" && isIp(next) == 0
    ensures provider(name) == Names([next], [])
  {
    hide PlainChars, Short;
    CleanAnswer(provider, isIp, urlHost, answers, name);
    assert ReadsAsName(isIp, raw);
    OneRecord(isIp, urlHost, raw);
  }

  lemma NoAnswer(isIp: IsIp, urlHost: UrlHost, answers: Answers, provider: Provider, name: string)
    requires Cleans(provider, isIp, urlHost, answers) && answers(name) == []
    ensures provider(name) == Names([], [])
  {
    CleanAnswer(provider, isIp, urlHost, answers, name);
  }

  lemma OneHop(provider: Provider, a: string, b: string)
    requires provider(a) == Names([b], []) && provider(b) == Names([], [])
    ensures EndsAt(provider, a, 1) && Hop(provider, a, 1) == Some(b)
    ensures Path(provider, a, 1) == [a, b] && InvalidOn(provider, a, 1) == []
  {
    assert Hop(provider, a, 0) == Some(a);
    assert Hop(provider, a, 1) == Some(b);
    assert Path(provider, a, 0) == [a];
    assert InvalidOn(provider, a, 0) == [];
  }

  /**
  A good one-hop path that is refused: the answer `b...` is followed as `b..`; behind the intake the chain ends with
  `b.` and the canonical name is `b`.
  */
  lemma TripleDotIsRefused(isIp: IsIp, urlHost: UrlHost, answers: Answers, provider: Provider, host: string,
                           b: string, name: string, raw: string)
    requires Cleans(provider, isIp, urlHost, answers) && IsPlain(host) && IsPlain(b)
    requires name == b + "." + "." && raw == name + "." && isIp(name) == 0
    requires answers(host) == [raw] && answers(name) == []
    ensures EndsAt(provider, host, 1) && Path(provider, host, 1) == [host, name] && InvalidOn(provider, host, 1) == []
    ensures !CheckedChain(isIp, host, Finished(isIp, urlHost, provider, host, 1))
  {
    TripleShape(host, b, name, raw);
    hide *;
    OneAnswer(isIp, urlHost, answers, provider, host, raw, name);
    NoAnswer(isIp, urlHost, answers, provider, name);
    OneHop(provider, host, name);
    CheckedChainIff(isIp, urlHost, provider, host, host, 1);
  }

  lemma TripleShape(host: string, b: string, name: string, raw: string)
    requires IsPlain(host) && IsPlain(b) && name == b + "." + "." && raw == name + "."
    ensures PlainChars(raw) && Short(raw) == name != "" && Ordinary([host, name]) && !EndsWell([host, name])
  {
    WithDots(b, b + ".", name, raw);
    hide Short, NothingNewAfter;
  }

  lemma TwoHops(provider: Provider, a: string, b: string, c: string)
    requires provider(a) == Names([b], []) && provider(b) == Names([c], []) && provider(c) == Names([], [])
    ensures EndsAt(provider, a, 2) && Hop(provider, a, 2) == Some(c)
    ensures Path(provider, a, 2) == [a, b, c] && InvalidOn(provider, a, 2) == []
  {
    assert Hop(provider, a, 0) == Some(a);
    assert Hop(provider, a, 1) == Some(b);
    assert Hop(provider, a, 2) == Some(c);
    assert Path(provider, a, 0) == [a];
    assert Path(provider, a, 1) == [a, b];
    assert InvalidOn(provider, a, 0) == [];
    assert InvalidOn(provider, a, 1) == [];
  }

  /**
  Another one: `host`, then `x`, then `host.` with its dot. Behind the intake the last entry is a duplicate and is
  dropped, so the chain ends with `x` while the canonical name is `host`.
  */
  lemma DottedReturnIsRefused(isIp: IsIp, urlHost: UrlHost, answers: Answers, provider: Provider, host: string, x: string,
                              back: string, raw: string)
    requires Cleans(provider, isIp, urlHost, answers) && IsPlain(host) && IsPlain(x) && x != host
    requires back == host + "." && raw == back + "." && isIp(x) == 0 && isIp(back) == 0
    requires answers(host) == [x] && answers(x) == [raw] && answers(back) == []
    ensures EndsAt(provider, host, 2) && Path(provider, host, 2) == [host, x, back] && InvalidOn(provider, host, 2) == []
    ensures !CheckedChain(isIp, host, Finished(isIp, urlHost, provider, host, 2))
  {
    ReturnShape(host, x, back, raw);
    hide *;
    OneAnswer(isIp, urlHost, answers, provider, host, x, x);
    OneAnswer(isIp, urlHost, answers, provider, x, raw, back);
    NoAnswer(isIp, urlHost, answers, provider, back);
    TwoHops(provider, host, x, back);
    CheckedChainIff(isIp, urlHost, provider, host, host, 2);
  }

  lemma ReturnShape(host: string, x: string, back: string, raw: string)
    requires IsPlain(host) && IsPlain(x) && x != host && back == host + "." && raw == back + "."
    ensures PlainChars(x) && Short(x) == x != "" && PlainChars(raw) && Short(raw) == back != ""
    ensures Ordinary([host, x, back]) && !EndsWell([host, x, back])
  {
    WithDots(host, back, raw, raw + ".");
    WithDots(x, x + ".", x + "." + ".", x + "." + "." + ".");
    hide Short, NothingNewAfter, IsPlain, PlainChars;
    var path := [host, x, back];
    assert Shorts(path) == [host, x, host];
    NewInBetween(host, x);
  }

  lemma NewInBetween(a: string, b: string)
    requires a != b
    ensures !NothingNewAfter([a, b, a], a)
  {
    var names := [a, b, a];
    assert names[0] == a && names[1] !in names[..1];
  }
}
