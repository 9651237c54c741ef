/** What each recorded action becomes in the compiled flow, and where. */
module FlowSteps {
  import opened Wrappers
  import opened FlowCompiler
  import Text

  // ----- steps on an element -----

  /** Why an element's step cannot simply be replayed. */
  predicate NeedsHuman(rec: Record) {
    || rec.primary.None? || rec.insufficient
    || |rec.primary.value.value| > 80 || |rec.primary.value.name| > 80
    || (forall i :: 0 <= i < |rec.candidates| && SameLocator(rec.candidates[i], rec.primary.value)
          ==> rec.candidates[i].count != Some(1))
    || (rec.frame.Some? && NoFrame(rec.frame.value))
  }

  /** The parent page cannot reach into the frame, or has nothing safe to find it by. */
  predicate NoFrame(fr: FrameRef) {
    || fr.crossOrigin
    || (!IsSafe(fr.id) && !IsSafe(fr.name) && !IsSafe(fr.title) && !IsSafe(fr.srcPath)
        && (fr.index.None? || fr.index.value < 0))
  }

  /** The frame a step is scoped to: none, or the first safe identity of the recorded one. */
  predicate InFrame(rec: Record, f: Frame) {
    match f
    case TopLevel => rec.frame.None? || NoFrame(rec.frame.value)
    case Unreplayable => false
    case Inside(place) =>
      && rec.frame.Some? && !NoFrame(rec.frame.value)
      && var fr := rec.frame.value;
         match place
         case ByText(how, text) =>
           && (how == "id" <==> IsSafe(fr.id)) && (how == "id" ==> text == fr.id)
           && (how == "name" <==> !IsSafe(fr.id) && IsSafe(fr.name)) && (how == "name" ==> text == fr.name)
           && (how == "title" <==> !IsSafe(fr.id) && !IsSafe(fr.name) && IsSafe(fr.title)) && (how == "title" ==> text == fr.title)
           && how in {"id", "name", "title", "urlGlob"} && (how == "urlGlob" ==> text == fr.srcPath)
         case ByIndex(index) =>
           !IsSafe(fr.id) && !IsSafe(fr.name) && !IsSafe(fr.title) && !IsSafe(fr.srcPath) && fr.index == Some(index)
  }

  /** The step does this to the recorded element; or a human is to choose one of the recorded candidates. */
  predicate Acts(rec: Record, step: Step, action: string, extra: Extra) {
    if NeedsHuman(rec) then step.ReviewFind? && step.candidates == rec.candidates && step.action == action && InFrame(rec, step.frame)
    else step.Find? && step.action == action && step.extra == extra && InFrame(rec, step.frame)
         && step.how == rec.primary.value.how && step.value == rec.primary.value.value && step.name == rec.primary.value.name
  }

  lemma ReviewIff(rec: Record)
    ensures UnderReview(rec) <==> NeedsHuman(rec)
  {}

  lemma FrameIsFirstSafe(rec: Record)
    ensures InFrame(rec, if FrameOf(rec).Unreplayable? then TopLevel else FrameOf(rec))
  {}

  lemma FindActs(rec: Record, action: string, extra: Extra)
    ensures Acts(rec, FindStep(rec, action, extra), action, extra)
  {
    ReviewIff(rec);
    FrameIsFirstSafe(rec);
    hide NeedsHuman, UnderReview, InFrame;
    if FrameOf(rec).Unreplayable? { UnreplayableIsReviewed(rec); }
  }

  lemma UnreplayableIsReviewed(rec: Record)
    requires FrameOf(rec).Unreplayable?
    ensures UnderReview(rec)
  {}

  // ----- look-ahead -----

  /** The URL a navigation settles on: that of the first later record that is none, or its own if there is no such URL. */
  ghost predicate SettlesOn(records: seq<Record>, i: nat, url: string)
    requires i < |records|
  {
    exists k: nat :: SettlesAt(records, i, k, url)
  }

  predicate SettlesAt(records: seq<Record>, i: nat, k: nat, url: string)
    requires i < |records|
  {
    && i < k <= |records| && (forall m :: i < m < k ==> records[m].action == "navigate")
    && (k < |records| ==> records[k].action != "navigate")
    && url == (if k < |records| && records[k].url != "" then records[k].url else records[i].url)
  }

  /** The text to wait for behind a change of the page: that of the first later element, unless a navigation comes first. */
  ghost predicate ShowsNext(records: seq<Record>, i: nat, text: string)
    requires i < |records|
  {
    exists k: nat :: ShowsAt(records, i, k, text)
  }

  predicate ShowsAt(records: seq<Record>, i: nat, k: nat, text: string)
    requires i < |records|
  {
    && i < k <= |records| && (forall m :: i < m < k ==> records[m].action == "dom_settle")
    && (k < |records| ==> records[k].action != "dom_settle")
    && text == (if k < |records| && records[k].action != "navigate" && records[k].primary.Some?
                   && records[k].primary.value.how in {"text", "label"}
                then records[k].primary.value.value else "")
  }

  lemma {:induction false} SettledUrlIs(records: seq<Record>, j: nat) returns (k: nat)
    requires j <= |records|
    ensures j <= k <= |records| && (forall m :: j <= m < k ==> records[m].action == "navigate")
    ensures k < |records| ==> records[k].action != "navigate" && SettledUrl(records, j) == records[k].url
    ensures k == |records| ==> SettledUrl(records, j) == ""
    decreases |records| - j
  {
    if j == |records| || records[j].action != "navigate" { k := j; } else { k := SettledUrlIs(records, j + 1); }
  }

  lemma {:induction false} SettledTextIs(records: seq<Record>, j: nat) returns (k: nat)
    requires j <= |records|
    ensures j <= k <= |records| && (forall m :: j <= m < k ==> records[m].action == "dom_settle")
    ensures k < |records| ==> records[k].action != "dom_settle"
    ensures SettledText(records, j)
            == if k < |records| && records[k].action != "navigate" && records[k].primary.Some?
                  && records[k].primary.value.how in {"text", "label"}
               then records[k].primary.value.value else ""
    decreases |records| - j
  {
    if j == |records| || records[j].action != "dom_settle" { k := j; } else { k := SettledTextIs(records, j + 1); }
  }

  // ----- one record -----

  /** An input that the selection right behind it reports again. */
  predicate IsRepeated(records: seq<Record>, i: nat)
    requires i < |records|
  {
    && records[i].action == "input" && i + 1 < |records| && records[i + 1].action == "select"
    && records[i].input == records[i + 1].input
    && LocatorKey(records[i]) == LocatorKey(records[i + 1]) != ""
  }

  const SEPARATOR := 1 as char

  /** The element a record is about: its locator, or the first candidate for one. */
  function ElementOf(rec: Record): Option<Locator> {
    if rec.primary.Some? then rec.primary else if rec.candidates == [] then None else Some(rec.candidates[0])
  }

  predicate NoSeparator(l: Locator) { SEPARATOR !in l.how && SEPARATOR !in l.value && SEPARATOR !in l.name }

  lemma KeyParts(l: Locator)
    requires NoSeparator(l)
    ensures Text.Split(l.how + [SEPARATOR] + l.value + [SEPARATOR] + l.name, SEPARATOR) == [l.how, l.value, l.name]
  {
    Text.SplitAfterFirst(l.how, l.value + [SEPARATOR] + l.name, SEPARATOR);
    Text.SplitAfterFirst(l.value, l.name, SEPARATOR);
    Text.SplitSingle(l.name, SEPARATOR);
    assert l.how + [SEPARATOR] + l.value + [SEPARATOR] + l.name == l.how + [SEPARATOR] + (l.value + [SEPARATOR] + l.name);
  }

  /** Two records have one key exactly when they are about one element, or neither is about any. */
  lemma SameKeyIff(a: Record, b: Record)
    requires ElementOf(a).Some? ==> NoSeparator(ElementOf(a).value)
    requires ElementOf(b).Some? ==> NoSeparator(ElementOf(b).value)
    ensures LocatorKey(a) == "" <==> ElementOf(a).None?
    ensures LocatorKey(a) == LocatorKey(b)
            <==> (if ElementOf(a).None? || ElementOf(b).None? then ElementOf(a) == ElementOf(b)
                  else SameLocator(ElementOf(a).value, ElementOf(b).value))
  {
    if ElementOf(a).Some? { KeyParts(ElementOf(a).value); }
    if ElementOf(b).Some? { KeyParts(ElementOf(b).value); }
  }

  /** What the step for record `i` does; `from` is the URL the flow is on, `token` the last number taken before. */
  ghost predicate Does(glob: Glob, records: seq<Record>, i: nat, from: string, token: nat, step: Option<Step>)
    requires i < |records|
  {
    var rec := records[i];
    match rec.action
    case "click" => step.Some? && Acts(rec, step.value, "click", NoExtra)
    case "check" => step.Some? && Acts(rec, step.value, "check", NoExtra)
    case "input" =>
      if IsRepeated(records, i) then step.None?
      else step.Some? && Acts(rec, step.value, "fill", if rec.upload then NoExtra else FillText(token + 1))
    case "select" => step.Some? && Acts(rec, step.value, "select", SelectVal(token + 1))
    case "key" => step == Some(Press(if rec.input in {None, Some("")} then "Enter" else rec.input.value))
    case "scroll" =>
      if rec.dir in {"up", "down", "left", "right"} && rec.px.Some? && rec.px.value > 0
      then step == Some(Scroll(rec.dir, rec.px.value)) else step.None?
    case "navigate" =>
      if rec.frame.Some? then step.None?
      else exists url :: SettlesOn(records, i, url)
             && (if url == "" || url == from then step.None?
                 else step == Some(if glob(url).Some? then Wait("url", glob(url).value) else Wait("load", "networkidle")))
    case "dom_settle" =>
      exists text :: ShowsNext(records, i, text)
        && step == Some(if text == "" then Wait("load", "networkidle") else Wait("text", text))
    case "unsupported" =>
      && step.Some? && step.value.Unsupported? && step.value.candidates == rec.candidates
      && step.value.capability == (if rec.capability == "" then "unsupported" else rec.capability)
      && (rec.reason != "" ==> step.value.reason == rec.reason)
      && (if rec.capability == "container-scroll"
          then step.value.asked == Scrolled(rec.dir, if rec.px.Some? && rec.px.value > 0 then rec.px else None)
          else step.value.asked == Acted(rec.forAction))
    case _ => step.None?
  }

  lemma TargetIsSettled(records: seq<Record>, i: nat)
    requires i < |records|
    ensures SettlesOn(records, i, TargetUrl(records, i))
  {
    var k := SettledUrlIs(records, i + 1);
    assert SettlesAt(records, i, k, TargetUrl(records, i));
  }

  lemma TextIsNext(records: seq<Record>, i: nat)
    requires i < |records|
    ensures ShowsNext(records, i, SettledText(records, i + 1))
  {
    var k := SettledTextIs(records, i + 1);
    assert ShowsAt(records, i, k, SettledText(records, i + 1));
  }

  lemma SelectIsTaken(rec: Record)
    requires rec.action == "select" && !NeedsHuman(rec)
    ensures TakenBy(rec).Token?
  {}

  lemma StepDoes(glob: Glob, records: seq<Record>, i: nat, flow: Flow, taken: Flow)
    requires i < |records| && taken == (if IsDropped(records, i) then flow else Take(flow, records[i]))
    ensures Does(glob, records, i, flow.lastUrl, flow.inputN, StepOf(glob, records, i, flow.lastUrl, taken.inputN))
  {
    var rec := records[i];
    hide Acts, FindStep, SettlesOn, ShowsNext, TargetUrl, SettledText, LocatorKey;
    match rec.action
    case "click" => FindActs(rec, "click", NoExtra);
    case "check" => FindActs(rec, "check", NoExtra);
    case "input" => FindActs(rec, "fill", if TakenBy(rec).Token? then FillText(taken.inputN) else NoExtra);
    case "select" => SelectDoes(rec, if TakenBy(rec).Token? then SelectVal(taken.inputN) else NoExtra, flow.inputN + 1);
    case "navigate" => TargetIsSettled(records, i);
    case "dom_settle" => TextIsNext(records, i);
    case _ =>
  }

  /** A selection that takes no token goes to review. */
  lemma SelectDoes(rec: Record, extra: Extra, token: nat)
    requires rec.action == "select" && (TakenBy(rec).Token? ==> extra == SelectVal(token))
    ensures Acts(rec, FindStep(rec, "select", extra), "select", SelectVal(token))
  {
    FindActs(rec, "select", extra);
    hide FindStep, InFrame;
    if !NeedsHuman(rec) { SelectIsTaken(rec); }
  }

  // ----- every record, in the whole flow -----

  lemma AfterSteps(glob: Glob, flow: Flow, records: seq<Record>, i: nat, taken: Flow, step: Option<Step>)
    requires i < |records| && taken == (if IsDropped(records, i) then flow else Take(flow, records[i]))
    requires step == StepOf(glob, records, i, flow.lastUrl, taken.inputN)
    ensures var after := After(glob, flow, records, i);
            && after.steps == flow.steps + (if step.Some? then [step.value] else [])
            && after.lastUrl == (if records[i].action == "navigate" && step.Some? then TargetUrl(records, i) else flow.lastUrl)
            && (step.Some? && HasLadder(step.value) ==>
                  |flow.steps| in after.byStep && after.byStep[|flow.steps|] == records[i].candidates)
  {
    hide StepOf, TakenBy, IsDropped, TargetUrl, IsReview, HasLadder;
  }

  lemma OneStepGrows(glob: Glob, startUrl: string, records: seq<Record>, n: nat)
    requires n < |records|
    ensures Compiled(glob, startUrl, records, n).steps <= Compiled(glob, startUrl, records, n + 1).steps
  {
    hide *;
    CompiledSteps(glob, startUrl, records, n + 1);
    var flow := Compiled(glob, startUrl, records, n);
    var taken := if IsDropped(records, n) then flow else Take(flow, records[n]);
    AfterSteps(glob, flow, records, n, taken, StepOf(glob, records, n, flow.lastUrl, taken.inputN));
  }

  lemma {:induction false} StepsGrow(glob: Glob, startUrl: string, records: seq<Record>, i: nat, n: nat)
    requires i <= n <= |records|
    ensures Compiled(glob, startUrl, records, i).steps <= Compiled(glob, startUrl, records, n).steps
  {
    hide *;
    if i < n {
      StepsGrow(glob, startUrl, records, i, n - 1);
      OneStepGrows(glob, startUrl, records, n - 1);
    }
  }

  /**
  For every recording and every record in it: what the flow holds for that record, behind all that came from earlier
  ones and before all that comes from later ones; and a wait for a URL is what moves the flow to it.
  */
  lemma RecordsBecomeSteps(glob: Glob, startUrl: string, records: seq<Record>, i: nat) returns (step: Option<Step>)
    requires i < |records|
    ensures var before, after := Compiled(glob, startUrl, records, i), Compiled(glob, startUrl, records, i + 1);
            && Does(glob, records, i, before.lastUrl, before.inputN, step)
            && after.steps == before.steps + (if step.Some? then [step.value] else [])
            && after.steps <= Compiled(glob, startUrl, records, |records|).steps
            && (records[i].action == "navigate" && step.Some? ==> SettlesOn(records, i, after.lastUrl))
            && (records[i].action != "navigate" || step.None? ==> after.lastUrl == before.lastUrl)
            && (step.Some? && HasLadder(step.value) ==>
                  |before.steps| in after.byStep && after.byStep[|before.steps|] == records[i].candidates)
  {
    hide *;
    var flow := Compiled(glob, startUrl, records, i);
    var taken := if IsDropped(records, i) then flow else Take(flow, records[i]);
    step := StepOf(glob, records, i, flow.lastUrl, taken.inputN);
    CompiledSteps(glob, startUrl, records, i + 1);
    StepsGrow(glob, startUrl, records, i + 1, |records|);
    AfterSteps(glob, flow, records, i, taken, step);
    StepDoes(glob, records, i, flow, taken);
    TargetIsSettled(records, i);
  }

  // ----- masked inputs -----

  /** An input whose value a human must supply. */
  predicate IsMasked(records: seq<Record>, i: nat)
    requires i < |records|
  {
    && records[i].action == "input" && !IsRepeated(records, i) && !records[i].upload
    && (records[i].masked || records[i].input.None?)
  }

  function MaskedIn(records: seq<Record>, n: nat): nat
    requires n <= |records|
  {
    if n == 0 then 0 else MaskedIn(records, n - 1) + if IsMasked(records, n - 1) then 1 else 0
  }

  lemma OneMasked(glob: Glob, flow: Flow, records: seq<Record>, i: nat)
    requires i < |records|
    ensures After(glob, flow, records, i).maskedCount == flow.maskedCount + if IsMasked(records, i) then 1 else 0
  {
    hide StepOf, TargetUrl, LocatorKey, HasLadder, IsReview;
  }

  /** The counter says how many inputs still need a value. */
  lemma {:induction false} MaskedAreCounted(glob: Glob, startUrl: string, records: seq<Record>, n: nat)
    requires n <= |records|
    ensures Compiled(glob, startUrl, records, n).maskedCount == MaskedIn(records, n)
  {
    hide After, IsMasked;
    if n > 0 {
      MaskedAreCounted(glob, startUrl, records, n - 1);
      OneMasked(glob, Compiled(glob, startUrl, records, n - 1), records, n - 1);
    }
  }
}
