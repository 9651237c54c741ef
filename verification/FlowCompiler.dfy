/** The recorder-to-flow compiler: captured actions, already in order, become replayable steps. */
module FlowCompiler {
  import opened Wrappers

  // ----- records -----

  /** A captured locator; `count` is how many elements it matched at capture time. */
  datatype Locator = Locator(how: string, value: string, name: string, count: Option<int>)

  datatype FrameRef = FrameRef(crossOrigin: bool, id: string, name: string, title: string, srcPath: string, index: Option<int>)

  /** A recorded action. An empty string stands for an absent text; `px` is the rounded scroll distance, if finite. */
  datatype Record = Record(
    action: string,
    url: string,
    primary: Option<Locator>,
    candidates: seq<Locator>,
    insufficient: bool,
    frame: Option<FrameRef>,
    input: Option<string>,
    masked: bool,
    upload: bool,
    capability: string,
    reason: string,
    forAction: string,
    dir: string,
    px: Option<int>)

  // ----- the flow -----

  datatype FrameLocator = ByText(how: string, text: string) | ByIndex(index: nat)

  datatype Frame = TopLevel | Inside(locator: FrameLocator) | Unreplayable

  /** What an unsupported step keeps of the recording: a container's scroll, or the name of the action. */
  datatype Asked = Scrolled(dir: string, px: Option<int>) | Acted(action: string)

  /** A step's reference to an input token. */
  datatype Extra = NoExtra | FillText(token: nat) | SelectVal(token: nat)

  datatype Step =
    | Find(how: string, value: string, name: string, action: string, frame: Frame, extra: Extra)
    | ReviewFind(candidates: seq<Locator>, action: string, frame: Frame)
    | Unsupported(capability: string, reason: string, candidates: seq<Locator>, asked: Asked)
    | Wait(until: string, target: string)
    | Press(key: string)
    | Scroll(dir: string, px: int)

  datatype Flow = Flow(
    steps: seq<Step>,
    values: map<nat, string>,
    inputN: nat,
    needsReview: nat,
    maskedCount: nat,
    lastUrl: string,
    byStep: map<nat, seq<Locator>>)

  /** URL normalisation: absent for a root or entirely volatile path. */
  type Glob = string -> Option<string>

  // ----- locators -----

  predicate SameLocator(a: Locator, b: Locator) { a.how == b.how && a.value == b.value && a.name == b.name }

  predicate OverLong(c: Locator) { |c.value| > 80 || |c.name| > 80 }

  predicate CaptureUnique(candidates: seq<Locator>, p: Locator) {
    exists i :: 0 <= i < |candidates| && SameLocator(candidates[i], p) && candidates[i].count == Some(1)
  }

  predicate IsSafe(s: string) { s != "" && '"' !in s && '\\' !in s }

  function FrameOf(rec: Record): Frame {
    if rec.frame.None? then TopLevel
    else
      var fr := rec.frame.value;
      if fr.crossOrigin then Unreplayable
      else if IsSafe(fr.id) then Inside(ByText("id", fr.id))
      else if IsSafe(fr.name) then Inside(ByText("name", fr.name))
      else if IsSafe(fr.title) then Inside(ByText("title", fr.title))
      else if IsSafe(fr.srcPath) then Inside(ByText("urlGlob", fr.srcPath))
      else if fr.index.Some? && fr.index.value >= 0 then Inside(ByIndex(fr.index.value))
      else Unreplayable
  }

  /** The step of this record needs a human. */
  predicate UnderReview(rec: Record) {
    || rec.primary.None? || rec.insufficient || OverLong(rec.primary.value)
    || !CaptureUnique(rec.candidates, rec.primary.value) || FrameOf(rec).Unreplayable?
  }

  function FindStep(rec: Record, action: string, extra: Extra): Step {
    var frame := FrameOf(rec);
    if UnderReview(rec) then ReviewFind(rec.candidates, action, if frame.Unreplayable? then TopLevel else frame)
    else Find(rec.primary.value.how, rec.primary.value.value, rec.primary.value.name, action, frame, extra)
  }

  const NO_REASON := "recorded capability is not replayable by the current flow schema"

  function UnsupportedStep(rec: Record): Step {
    var capability := if rec.capability == "" then "unsupported" else rec.capability;
    Unsupported(capability, if rec.reason == "" then NO_REASON else rec.reason, rec.candidates,
                if capability == "container-scroll"
                then Scrolled(rec.dir, if rec.px.Some? && rec.px.value > 0 then rec.px else None)
                else Acted(rec.forAction))
  }

  predicate IsReview(s: Step) { s.ReviewFind? || s.Unsupported? }

  /** A step with a locator or the record of one: its captured ladder goes to the sidecar. */
  predicate HasLadder(s: Step) { s.Find? || IsReview(s) }

  // ----- duplicates and look-ahead -----

  function LocatorKey(rec: Record): string {
    if rec.primary.None? && rec.candidates == [] then ""
    else
      var p := if rec.primary.Some? then rec.primary.value else rec.candidates[0];
      p.how + [1 as char] + p.value + [1 as char] + p.name
  }

  predicate IsSelectInputDuplicate(rec: Record, next: Record) {
    && rec.action == "input" && next.action == "select" && rec.input == next.input
    && LocatorKey(rec) != "" && LocatorKey(rec) == LocatorKey(next)
  }

  /** The URL of the next record that is not a navigation, or nothing. */
  function SettledUrl(records: seq<Record>, j: nat): string
    decreases |records| - j
  {
    if j >= |records| then ""
    else if records[j].action != "navigate" then records[j].url
    else SettledUrl(records, j + 1)
  }

  /** The literal text of the next locator, unless a navigation comes first. */
  function SettledText(records: seq<Record>, j: nat): string
    decreases |records| - j
  {
    if j >= |records| then ""
    else
      var r := records[j];
      if r.action == "dom_settle" then SettledText(records, j + 1)
      else if r.action != "navigate" && r.primary.Some? && r.primary.value.how in {"text", "label"} then r.primary.value.value
      else ""
  }

  // ----- what one record adds -----

  /** The input token a record takes and the value stored for it. */
  datatype Taken = NoToken | Token(value: Option<string>)

  function TakenBy(rec: Record): Taken {
    if rec.action == "input" && !rec.upload then Token(if rec.masked then None else rec.input)
    else if rec.action == "select" && rec.primary.Some? && !rec.insufficient then Token(rec.input)
    else NoToken
  }

  predicate IsDropped(records: seq<Record>, i: nat)
    requires i < |records|
  {
    i + 1 < |records| && IsSelectInputDuplicate(records[i], records[i + 1])
  }

  const DIRS := {"up", "down", "left", "right"}

  /** The step a record adds, if any; `token` is the number its input token gets. */
  function StepOf(glob: Glob, records: seq<Record>, i: nat, lastUrl: string, token: nat): Option<Step>
    requires i < |records|
  {
    var rec := records[i];
    if rec.action == "navigate" then
      var to := TargetUrl(records, i);
      if rec.frame.Some? || to == "" || to == lastUrl then None
      else if glob(to).Some? then Some(Wait("url", glob(to).value)) else Some(Wait("load", "networkidle"))
    else if rec.action == "dom_settle" then
      var text := SettledText(records, i + 1);
      Some(if text != "" then Wait("text", text) else Wait("load", "networkidle"))
    else if rec.action == "unsupported" then Some(UnsupportedStep(rec))
    else if IsDropped(records, i) then None
    else if rec.action == "click" then Some(FindStep(rec, "click", NoExtra))
    else if rec.action == "check" then Some(FindStep(rec, "check", NoExtra))
    else if rec.action == "key" then
      Some(Press(if rec.input.None? || rec.input.value == "" then "Enter" else rec.input.value))
    else if rec.action == "input" then
      Some(FindStep(rec, "fill", if TakenBy(rec).Token? then FillText(token) else NoExtra))
    else if rec.action == "select" then
      Some(FindStep(rec, "select", if TakenBy(rec).Token? then SelectVal(token) else NoExtra))
    else if rec.action == "scroll" && rec.dir in DIRS && rec.px.Some? && rec.px.value > 0 then
      Some(Scroll(rec.dir, rec.px.value))
    else None
  }

  function TargetUrl(records: seq<Record>, i: nat): string
    requires i < |records|
  {
    var settled := SettledUrl(records, i + 1);
    if settled != "" then settled else records[i].url
  }

  /** Appending a step, with the ladder of its record when it has a locator. */
  function Append(flow: Flow, step: Step, ladder: seq<Locator>): Flow {
    flow.(
      steps := flow.steps + [step],
      needsReview := flow.needsReview + (if IsReview(step) then 1 else 0),
      byStep := if HasLadder(step) then flow.byStep[|flow.steps| := ladder] else flow.byStep)
  }

  function Take(flow: Flow, rec: Record): Flow {
    match TakenBy(rec)
    case NoToken => flow
    case Token(v) =>
      var n := flow.inputN + 1;
      flow.(inputN := n,
            values := if v.Some? then flow.values[n := v.value] else flow.values,
            maskedCount := flow.maskedCount + (if rec.action == "input" && v.None? then 1 else 0))
  }

  /** The flow after the first `n` records. */
  function Compiled(glob: Glob, startUrl: string, records: seq<Record>, n: nat): Flow
    requires n <= |records|
  {
    if n == 0 then Flow([], map[], 0, 0, 0, startUrl, map[])
    else After(glob, Compiled(glob, startUrl, records, n - 1), records, n - 1)
  }

  function After(glob: Glob, flow: Flow, records: seq<Record>, i: nat): Flow
    requires i < |records|
  {
    var rec := records[i];
    var taken := if IsDropped(records, i) then flow else Take(flow, rec);
    var step := StepOf(glob, records, i, flow.lastUrl, taken.inputN);
    var moved := if rec.action == "navigate" && step.Some? then taken.(lastUrl := TargetUrl(records, i)) else taken;
    if step.None? then moved else Append(moved, step.value, rec.candidates)
  }

  // ----- the compiler -----

  class Compiler {
    const glob: Glob
    var steps: seq<Step>
    var values: map<nat, string>
    var inputN: nat
    var needsReview: nat
    var maskedCount: nat
    var lastUrl: string
    var byStep: map<nat, seq<Locator>>

    function Model(): Flow
      reads this
    {
      Flow(steps, values, inputN, needsReview, maskedCount, lastUrl, byStep)
    }

    constructor (glob: Glob, startUrl: string)
      ensures Model() == Flow([], map[], 0, 0, 0, startUrl, map[]) && this.glob == glob
    {
      this.glob := glob;
      steps, values, inputN, needsReview, maskedCount, lastUrl, byStep := [], map[], 0, 0, 0, startUrl, map[];
    }

    method ActionFind(rec: Record, action: string, extra: Extra)
      modifies `steps, `needsReview, `byStep
      ensures Model() == Append(old(Model()), FindStep(rec, action, extra), rec.candidates)
    {
      var frame := FrameOf(rec);
      if UnderReview(rec) {
        needsReview := needsReview + 1;
        var recorded := if frame.Unreplayable? then TopLevel else frame;
        steps := steps + [ReviewFind(rec.candidates, action, recorded)];
        byStep := byStep[|steps| - 1 := rec.candidates];
        return;
      }
      var p := rec.primary.value;
      steps := steps + [Find(p.how, p.value, p.name, action, frame, extra)];
      byStep := byStep[|steps| - 1 := rec.candidates];
    }

    method UnsupportedReview(rec: Record)
      modifies `steps, `needsReview, `byStep
      ensures Model() == Append(old(Model()), UnsupportedStep(rec), rec.candidates)
    {
      needsReview := needsReview + 1;
      steps := steps + [UnsupportedStep(rec)];
      byStep := byStep[|steps| - 1 := rec.candidates];
    }

    method Token(realValue: Option<string>) returns (key: nat)
      modifies `inputN, `values
      ensures key == inputN == old(inputN) + 1
      ensures values == if realValue.Some? then old(values)[key := realValue.value] else old(values)
    {
      inputN := inputN + 1;
      key := inputN;
      if realValue.Some? { values := values[key := realValue.value]; }
    }

    method MaybeWait(toUrl: string)
      modifies `steps, `lastUrl
      ensures toUrl == "" || toUrl == old(lastUrl) ==> Model() == old(Model())
      ensures toUrl != "" && toUrl != old(lastUrl)
              ==> Model() == Append(old(Model()).(lastUrl := toUrl),
                                    if glob(toUrl).Some? then Wait("url", glob(toUrl).value) else Wait("load", "networkidle"), [])
    {
      if toUrl == "" || toUrl == lastUrl { return; }
      var g := glob(toUrl);
      if g.Some? { steps := steps + [Wait("url", g.value)]; }
      else { steps := steps + [Wait("load", "networkidle")]; }
      lastUrl := toUrl;
    }

    method Push(step: Step)
      requires !HasLadder(step)
      modifies `steps
      ensures Model() == Append(old(Model()), step, [])
    {
      steps := steps + [step];
    }

    method Boundary(records: seq<Record>, i: nat)
      requires i < |records| && records[i].action == "navigate" && records[i].frame.None?
      modifies `steps, `lastUrl
      ensures Model() == After(glob, old(Model()), records, i)
    {
      var to := "";
      var j := i + 1;
      while j < |records|
        invariant i < j <= |records| && to == ""
        invariant SettledUrl(records, i + 1) == SettledUrl(records, j)
      {
        if records[j].action != "navigate" { to := records[j].url; break; }
        j := j + 1;
      }
      if to == "" { to := records[i].url; }
      MaybeWait(to);
    }

    method Settle(records: seq<Record>, i: nat)
      requires i < |records| && records[i].action == "dom_settle"
      modifies `steps
      ensures Model() == After(glob, old(Model()), records, i)
    {
      var text := "";
      var j := i + 1;
      while j < |records|
        invariant i < j <= |records| && text == ""
        invariant SettledText(records, i + 1) == SettledText(records, j)
      {
        var r := records[j];
        if r.action == "dom_settle" { j := j + 1; continue; }
        if r.action == "navigate" { break; }
        if r.primary.Some? && r.primary.value.how in {"text", "label"} { text := r.primary.value.value; }
        break;
      }
      if text != "" { Push(Wait("text", text)); } else { Push(Wait("load", "networkidle")); }
    }

    method Input(rec: Record)
      requires rec.action == "input"
      modifies this
      ensures Model() == Append(Take(old(Model()), rec),
                                FindStep(rec, "fill", if TakenBy(rec).Token? then FillText(old(inputN) + 1) else NoExtra),
                                rec.candidates)
    {
      if rec.upload {
        ActionFind(rec, "fill", NoExtra);
      } else if rec.masked || rec.input.None? {
        maskedCount := maskedCount + 1;
        var key := Token(None);
        ActionFind(rec, "fill", FillText(key));
      } else {
        var key := Token(rec.input);
        ActionFind(rec, "fill", FillText(key));
      }
    }

    method Select(rec: Record)
      requires rec.action == "select"
      modifies this
      ensures Model() == Append(Take(old(Model()), rec),
                                FindStep(rec, "select", if TakenBy(rec).Token? then SelectVal(old(inputN) + 1) else NoExtra),
                                rec.candidates)
    {
      if rec.primary.None? || rec.insufficient {
        ActionFind(rec, "select", NoExtra);
      } else {
        var key := Token(rec.input);
        ActionFind(rec, "select", SelectVal(key));
      }
    }

    method CompileRecord(records: seq<Record>, i: nat)
      requires i < |records|
      modifies this
      ensures Model() == After(glob, old(Model()), records, i)
    {
      var rec := records[i];
      var t := rec.action;
      if t == "navigate" {
        if rec.frame.None? { Boundary(records, i); }
      } else if t == "dom_settle" {
        Settle(records, i);
      } else if t == "unsupported" {
        UnsupportedReview(rec);
      } else if i + 1 < |records| && IsSelectInputDuplicate(rec, records[i + 1]) {
      } else if t == "click" {
        ActionFind(rec, "click", NoExtra);
      } else if t == "check" {
        ActionFind(rec, "check", NoExtra);
      } else if t == "key" {
        Push(Press(if rec.input.None? || rec.input.value == "" then "Enter" else rec.input.value));
      } else if t == "input" {
        Input(rec);
      } else if t == "select" {
        Select(rec);
      } else if t == "scroll" && rec.dir in DIRS && rec.px.Some? && rec.px.value > 0 {
        Push(Scroll(rec.dir, rec.px.value));
      }
    }

    method Compile(records: seq<Record>)
      requires Model() == Flow([], map[], 0, 0, 0, lastUrl, map[])
      modifies this
      ensures Model() == Compiled(glob, old(lastUrl), records, |records|)
    {
      ghost var startUrl := lastUrl;
      for i := 0 to |records|
        invariant Model() == Compiled(glob, startUrl, records, i)
      {
        CompileRecord(records, i);
      }
    }
  }

  // ----- what every compiled flow keeps -----

  function Reviews(steps: seq<Step>): nat {
    if steps == [] then 0
    else Reviews(steps[..|steps| - 1]) + (if IsReview(steps[|steps| - 1]) then 1 else 0)
  }

  lemma ReviewsPush(steps: seq<Step>, s: Step)
    ensures Reviews(steps + [s]) == Reviews(steps) + (if IsReview(s) then 1 else 0)
  {
    assert (steps + [s])[..|steps|] == steps;
  }

  /** A find step that replays: short locator, unique in its own captured ladder. */
  predicate IsReplayable(s: Step, ladder: seq<Locator>) {
    s.Find? ==> |s.value| <= 80 && |s.name| <= 80 && CaptureUnique(ladder, Locator(s.how, s.value, s.name, None))
  }

  ghost predicate Sound(flow: Flow) {
    && flow.needsReview == Reviews(flow.steps)
    && (forall k :: k in flow.byStep <==> 0 <= k < |flow.steps| && HasLadder(flow.steps[k]))
    && (forall k :: 0 <= k < |flow.steps| && flow.steps[k].Find? ==> IsReplayable(flow.steps[k], flow.byStep[k]))
  }

  lemma AppendKeeps(flow: Flow, step: Step, ladder: seq<Locator>)
    requires Sound(flow) && IsReplayable(step, ladder)
    ensures Sound(Append(flow, step, ladder))
  {
    ReviewsPush(flow.steps, step);
    hide Reviews, IsReplayable;
  }

  lemma FindStepReplays(rec: Record, action: string, extra: Extra)
    ensures IsReplayable(FindStep(rec, action, extra), rec.candidates)
  {
    if !UnderReview(rec) {
      var p := rec.primary.value;
      var i :| 0 <= i < |rec.candidates| && SameLocator(rec.candidates[i], p) && rec.candidates[i].count == Some(1);
      assert SameLocator(rec.candidates[i], Locator(p.how, p.value, p.name, None));
    }
  }

  lemma StepReplays(glob: Glob, records: seq<Record>, i: nat, lastUrl: string, token: nat)
    requires i < |records| && StepOf(glob, records, i, lastUrl, token).Some?
    ensures IsReplayable(StepOf(glob, records, i, lastUrl, token).value, records[i].candidates)
  {
    forall action, extra ensures IsReplayable(FindStep(records[i], action, extra), records[i].candidates) {
      FindStepReplays(records[i], action, extra);
    }
    hide FindStep;
  }

  /**
  Whatever was recorded: the review counter is the number of steps under review, the sidecar has exactly the locator
  and unsupported steps, and every other find step has a short locator that was unique when captured.
  */
  lemma {:induction false} FlowIsSound(glob: Glob, startUrl: string, records: seq<Record>, n: nat)
    requires n <= |records|
    ensures Sound(Compiled(glob, startUrl, records, n))
  {
    hide *;
    CompiledSteps(glob, startUrl, records, n);
    if n == 0 {
      NothingIsSound(startUrl);
    } else {
      FlowIsSound(glob, startUrl, records, n - 1);
      AfterKeeps(glob, Compiled(glob, startUrl, records, n - 1), records, n - 1);
    }
  }

  lemma CompiledSteps(glob: Glob, startUrl: string, records: seq<Record>, n: nat)
    requires n <= |records|
    ensures n == 0 ==> Compiled(glob, startUrl, records, n) == Flow([], map[], 0, 0, 0, startUrl, map[])
    ensures n > 0 ==> Compiled(glob, startUrl, records, n)
                      == After(glob, Compiled(glob, startUrl, records, n - 1), records, n - 1)
  {
    hide After;
  }

  lemma NothingIsSound(startUrl: string)
    ensures Sound(Flow([], map[], 0, 0, 0, startUrl, map[]))
  {}

  lemma AfterKeeps(glob: Glob, flow: Flow, records: seq<Record>, i: nat)
    requires i < |records| && Sound(flow)
    ensures Sound(After(glob, flow, records, i))
  {
    hide StepOf, Sound, IsReplayable, IsDropped, TargetUrl, Append, UnderReview;
    var rec := records[i];
    var taken := if IsDropped(records, i) then flow else Take(flow, rec);
    var step := StepOf(glob, records, i, flow.lastUrl, taken.inputN);
    var moved := if rec.action == "navigate" && step.Some? then taken.(lastUrl := TargetUrl(records, i)) else taken;
    SoundIgnores(flow, moved);
    if step.Some? {
      StepReplays(glob, records, i, flow.lastUrl, taken.inputN);
      AppendKeeps(moved, step.value, rec.candidates);
    }
  }

  lemma SoundIgnores(a: Flow, b: Flow)
    requires Sound(a) && a.steps == b.steps && a.needsReview == b.needsReview && a.byStep == b.byStep
    ensures Sound(b)
  {}

  // ----- tokens -----

  function TokenIn(s: Step): Option<nat> {
    if s.Find? && s.extra != NoExtra then Some(s.extra.token) else None
  }

  /** The tokens a flow refers to, step by step. */
  function TokensOf(steps: seq<Step>): seq<nat> {
    if steps == [] then []
    else
      var last := |steps| - 1;
      TokensOf(steps[..last]) + (if TokenIn(steps[last]).Some? then [TokenIn(steps[last]).value] else [])
  }

  /** What a record does with tokens: takes one, stores a value for it, refers to it from its step. */
  datatype Move = Move(taken: bool, value: Option<string>, used: bool)

  function MoveOf(records: seq<Record>, i: nat): Move
    requires i < |records|
  {
    if TakenBy(records[i]).NoToken? || IsDropped(records, i) then Move(false, None, false)
    else Move(true, TakenBy(records[i]).value, !UnderReview(records[i]))
  }

  function MovesOf(records: seq<Record>): seq<Move> {
    seq(|records|, i requires 0 <= i < |records| => MoveOf(records, i))
  }

  /** The token side of a flow. */
  datatype Ledger = Ledger(taken: nat, refs: seq<nat>, values: map<nat, string>)

  function LedgerOf(flow: Flow): Ledger { Ledger(flow.inputN, TokensOf(flow.steps), flow.values) }

  function Entered(l: Ledger, m: Move): Ledger {
    if !m.taken then l
    else
      var t := l.taken + 1;
      Ledger(t, if m.used then l.refs + [t] else l.refs, if m.value.Some? then l.values[t := m.value.value] else l.values)
  }

  function Book(moves: seq<Move>): Ledger {
    if moves == [] then Ledger(0, [], map[]) else Entered(Book(moves[..|moves| - 1]), moves[|moves| - 1])
  }

  /** A step refers to a token only when its record takes one, and then to the number just taken. */
  lemma StepToken(glob: Glob, records: seq<Record>, i: nat, lastUrl: string, token: nat)
    requires i < |records|
    ensures var step := StepOf(glob, records, i, lastUrl, token);
            (step.Some? && TokenIn(step.value).Some?)
            <==> (TakenBy(records[i]).Token? && !IsDropped(records, i) && !UnderReview(records[i]))
    ensures var step := StepOf(glob, records, i, lastUrl, token);
            step.Some? && TokenIn(step.value).Some? ==> TokenIn(step.value).value == token
    ensures TakenBy(records[i]).Token? && !IsDropped(records, i) ==> StepOf(glob, records, i, lastUrl, token).Some?
  {
    hide CaptureUnique, UnderReview, LocatorKey, SettledUrl, SettledText, TargetUrl;
  }

  lemma TokensPush(steps: seq<Step>, s: Step)
    ensures TokensOf(steps + [s]) == TokensOf(steps) + (if TokenIn(s).Some? then [TokenIn(s).value] else [])
  {
    assert (steps + [s])[..|steps|] == steps;
  }

  /** How one record moves the token side of the flow. */
  lemma TokenStep(glob: Glob, flow: Flow, records: seq<Record>, i: nat)
    requires i < |records|
    ensures LedgerOf(After(glob, flow, records, i))
            == Entered(LedgerOf(flow), Move(TakenBy(records[i]).Token? && !IsDropped(records, i),
                                            if TakenBy(records[i]).Token? then TakenBy(records[i]).value else None,
                                            !UnderReview(records[i])))
  {
    hide StepOf, TakenBy, IsDropped, UnderReview, TokensOf, TokenIn, TargetUrl, HasLadder, IsReview;
    var taken := if IsDropped(records, i) then flow else Take(flow, records[i]);
    StepToken(glob, records, i, flow.lastUrl, taken.inputN);
    var step := StepOf(glob, records, i, flow.lastUrl, taken.inputN);
    if step.Some? { TokensPush(flow.steps, step.value); }
  }

  lemma BookStep(moves: seq<Move>, n: nat)
    requires n < |moves|
    ensures Book(moves[..n + 1]) == Entered(Book(moves[..n]), moves[n])
  {
    assert moves[..n + 1][..n] == moves[..n];
  }

  /** The token side depends on the records alone, and is the book of their moves. */
  lemma {:induction false} TokensAreBooked(glob: Glob, startUrl: string, records: seq<Record>, n: nat)
    requires n <= |records|
    ensures LedgerOf(Compiled(glob, startUrl, records, n)) == Book(MovesOf(records)[..n])
  {
    if n > 0 {
      TokensAreBooked(glob, startUrl, records, n - 1);
      TokenStep(glob, Compiled(glob, startUrl, records, n - 1), records, n - 1);
      BookStep(MovesOf(records), n - 1);
      assert MovesOf(records)[n - 1] == MoveOf(records, n - 1);
      hide After, TakenBy, IsDropped, UnderReview, LedgerOf, Book;
    }
  }

  predicate Increasing(ts: seq<nat>, top: nat) {
    && (forall i, j :: 0 <= i < j < |ts| ==> ts[i] < ts[j])
    && (forall i :: 0 <= i < |ts| ==> 1 <= ts[i] <= top)
  }

  lemma {:induction false} BookIncreases(moves: seq<Move>)
    ensures Increasing(Book(moves).refs, Book(moves).taken)
    ensures forall t :: t in Book(moves).values ==> 1 <= t <= Book(moves).taken
  {
    if moves != [] { BookIncreases(moves[..|moves| - 1]); }
  }

  lemma {:induction false} BookGrows(moves: seq<Move>, i: nat, n: nat)
    requires i <= n <= |moves|
    ensures Book(moves[..i]).taken <= Book(moves[..n]).taken
  {
    if i < n {
      BookGrows(moves, i, n - 1);
      BookStep(moves, n - 1);
    }
  }

  /** Move `i` takes token `t`. */
  predicate TakesAt(moves: seq<Move>, i: nat, t: nat)
    requires i < |moves|
  {
    moves[i].taken && t == Book(moves[..i]).taken + 1
  }

  lemma {:induction false} FateInBook(moves: seq<Move>, i: nat, t: nat, n: nat)
    requires i < n <= |moves| && TakesAt(moves, i, t)
    ensures t <= Book(moves[..n]).taken
    ensures t in Book(moves[..n]).values <==> moves[i].value.Some?
    ensures t in Book(moves[..n]).values ==> Book(moves[..n]).values[t] == moves[i].value.value
    ensures t in Book(moves[..n]).refs <==> moves[i].used
  {
    BookStep(moves, n - 1);
    BookIncreases(moves[..n - 1]);
    hide Book;
    if i < n - 1 { FateInBook(moves, i, t, n - 1); }
  }

  lemma {:induction false} TakerInBook(moves: seq<Move>, n: nat, t: nat) returns (i: nat)
    requires n <= |moves| && 1 <= t <= Book(moves[..n]).taken
    ensures i < n && TakesAt(moves, i, t)
  {
    BookStep(moves, n - 1);
    if t <= Book(moves[..n - 1]).taken {
      i := TakerInBook(moves, n - 1, t);
    } else {
      i := n - 1;
    }
  }

  lemma OneTaker(moves: seq<Move>, i: nat, j: nat, t: nat)
    requires i < |moves| && j < |moves| && TakesAt(moves, i, t) && TakesAt(moves, j, t)
    ensures i == j
  {
    var low, high := if i < j then i else j, if i < j then j else i;
    if low < high {
      BookStep(moves, low);
      BookGrows(moves, low + 1, high);
    }
  }

  /** The tokens a flow refers to are pairwise distinct and increasing, and only numbers that were taken have values. */
  lemma TokensIncrease(glob: Glob, startUrl: string, records: seq<Record>)
    ensures var flow := Compiled(glob, startUrl, records, |records|);
            Increasing(TokensOf(flow.steps), flow.inputN) && forall t :: t in flow.values ==> 1 <= t <= flow.inputN
  {
    TokensAreBooked(glob, startUrl, records, |records|);
    BookIncreases(MovesOf(records)[..|records|]);
  }

  /** Record `i` takes token `t` while the flow is compiled. */
  predicate Takes(glob: Glob, startUrl: string, records: seq<Record>, i: nat, t: nat)
    requires i < |records|
  {
    TakenBy(records[i]).Token? && !IsDropped(records, i) && t == Compiled(glob, startUrl, records, i).inputN + 1
  }

  /**
  The fate of every token. Exactly one record takes it. It has a stored value exactly when that record carried one
  (for an input, an unmasked one), and then that value; and a step refers to it exactly when the record's step is
  not under review.
  */
  lemma TokenFate(glob: Glob, startUrl: string, records: seq<Record>, t: nat) returns (i: nat)
    requires 1 <= t <= Compiled(glob, startUrl, records, |records|).inputN
    ensures i < |records| && Takes(glob, startUrl, records, i, t)
    ensures forall j: nat :: j < |records| && Takes(glob, startUrl, records, j, t) ==> j == i
    ensures var flow, rec := Compiled(glob, startUrl, records, |records|), records[i];
            && (t in flow.values <==> rec.input.Some? && (rec.action == "input" ==> !rec.masked))
            && (t in flow.values ==> flow.values[t] == rec.input.value)
            && (t in TokensOf(flow.steps) <==> !UnderReview(rec))
  {
    var moves := MovesOf(records);
    TokensAreBooked(glob, startUrl, records, |records|);
    i := TakerInBook(moves, |records|, t);
    assert moves[i] == MoveOf(records, i);
    TokensAreBooked(glob, startUrl, records, i);
    FateInBook(moves, i, t, |records|);
    hide Book, UnderReview, IsDropped, Compiled, TokensOf;
    forall j: nat | j < |records| && Takes(glob, startUrl, records, j, t) ensures j == i {
      TokensAreBooked(glob, startUrl, records, j);
      assert moves[j] == MoveOf(records, j);
      OneTaker(moves, i, j, t);
    }
  }

  /** A masked selection still stores its value: only inputs look at the mask. */
  lemma MaskedSelectIsStored(glob: Glob, startUrl: string, records: seq<Record>, t: nat, i: nat)
    requires i < |records| && Takes(glob, startUrl, records, i, t)
    requires t <= Compiled(glob, startUrl, records, |records|).inputN
    requires records[i].action == "select" && records[i].masked && records[i].input.Some?
    ensures t in Compiled(glob, startUrl, records, |records|).values
  {
    var j := TokenFate(glob, startUrl, records, t);
    assert j == i;
  }

  /** An upload is a plain fill without a text unless its locator already called for review. */
  lemma UploadIsReviewedIff(glob: Glob, records: seq<Record>, i: nat, lastUrl: string, token: nat)
    requires i < |records| && records[i].action == "input" && records[i].upload && !IsDropped(records, i)
    ensures var step := StepOf(glob, records, i, lastUrl, token);
            step.Some? && TokenIn(step.value).None? && (IsReview(step.value) <==> UnderReview(records[i]))
  {}
}
