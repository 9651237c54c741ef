/**
The life of a command plan: review targets, dry-run, confirm, one live run.

Hashes are free constructors over canonical values, which is SHA-256 without collisions. What the
surrounding host decides (Unicode NFC and the collation of `localeCompare`) is a parameter.
*/
module CommandPlan {
  import opened Wrappers
  import Text

  /** What the host runtime supplies: NFC normalisation, and `a.localeCompare(b) <= 0`. */
  datatype Host = Host(nfc: string -> string, precedes: (string, string) -> bool)

  /** ECMA-402 makes `localeCompare` a consistent comparison, hence total. */
  ghost predicate Collates(h: Host) {
    forall a, b :: h.precedes(a, b) || h.precedes(b, a)
  }

  // ----- hashed values -----

  datatype StableTarget = StableTarget(key: string, titleHash: Hash, summaryHash: Hash)

  datatype Canonical =
    | CText(text: string)
    | CTargetSet(planId: string, system: string, action: string, targets: seq<StableTarget>)
    | CAction(action: string, titleField: string, body: string)
    | CResults(results: seq<string>)
    | CNothing
    | CPlanCore(id: string, system: string, action: string, recipeActionHash: Option<Hash>)

  datatype Hash = Sha256(preimage: Canonical)

  function HashText(h: Host, s: string): Hash { Sha256(CText(h.nfc(s))) }

  // ----- the database and the recipes a plan is checked against -----

  datatype Approval = Approval(title: string, summary: string, fetchedAt: int)
  datatype Record = Record(data: map<string, string>, summary: string, fetchedAt: int)
  datatype ActionBlock = ActionBlock(titleField: string, body: string)
  datatype World = World(
    approvals: map<string, Approval>,
    records: map<(string, string), Record>,
    actions: map<(string, string), ActionBlock>,
    launchable: set<string>)

  predicate Blank(s: string) { Text.Trim(s) == "" }

  predicate IsReadAction(action: string) { action in {"query", "sync", "enrich", "summarize"} }

  function TitleField(w: World, system: string, action: string): string {
    if !IsReadAction(action) && (system, action) in w.actions && w.actions[(system, action)].titleField != ""
    then w.actions[(system, action)].titleField else "title"
  }

  /** The content title of one key: the approvals table first, then the system's records. */
  function TitleOf(w: World, system: string, titleField: string, key: string): Option<string> {
    if key in w.approvals && !Blank(w.approvals[key].title) then Some(w.approvals[key].title)
    else if (system, key) in w.records && titleField in w.records[(system, key)].data
            && !Blank(w.records[(system, key)].data[titleField])
    then Some(w.records[(system, key)].data[titleField])
    else None
  }

  function SummaryOf(w: World, system: string, key: string): string {
    if key in w.approvals then w.approvals[key].summary
    else if (system, key) in w.records then w.records[(system, key)].summary else ""
  }

  function FetchedAt(w: World, system: string, key: string): Option<int> {
    if key in w.approvals then Some(w.approvals[key].fetchedAt)
    else if (system, key) in w.records then Some(w.records[(system, key)].fetchedAt) else None
  }

  function ActionHash(h: Host, action: string, b: ActionBlock): Hash {
    Sha256(CAction(h.nfc(action), h.nfc(b.titleField), h.nfc(b.body)))
  }

  // ----- target sets -----

  datatype Target = Target(
    key: string, title: string, summary: string, fetchedAt: Option<int>, titleHash: Hash, summaryHash: Hash)

  datatype TargetSet = TargetSet(
    planId: string, system: string, action: string, reviewedAt: int, targets: seq<Target>)

  /** The stable identity of a review: no review time and no volatile field of a target. */
  function HashTargetSet(h: Host, ts: TargetSet): Hash {
    Sha256(CTargetSet(h.nfc(ts.planId), h.nfc(ts.system), h.nfc(ts.action), StableTargets(h, ts.targets)))
  }

  function StableTargets(h: Host, ts: seq<Target>): seq<StableTarget> {
    seq(|ts|, i requires 0 <= i < |ts| => StableTarget(h.nfc(ts[i].key), ts[i].titleHash, ts[i].summaryHash))
  }

  function KeysOf(ts: seq<Target>): seq<string> {
    seq(|ts|, i requires 0 <= i < |ts| => ts[i].key)
  }

  function Distinct(keys: seq<string>): seq<string> {
    if keys == [] then []
    else
      var rest := Distinct(keys[..|keys| - 1]);
      if keys[|keys| - 1] in rest then rest else rest + [keys[|keys| - 1]]
  }

  function TrimmedKeys(keys: seq<string>): seq<string> {
    if keys == [] then []
    else (if Blank(keys[0]) then [] else [Text.Trim(keys[0])]) + TrimmedKeys(keys[1..])
  }

  function NormalKeys(keys: seq<string>): seq<string> { Distinct(TrimmedKeys(keys)) }

  function Insert(h: Host, t: Target, ts: seq<Target>): seq<Target> {
    if ts == [] || h.precedes(t.key, ts[0].key) then [t] + ts else [ts[0]] + Insert(h, t, ts[1..])
  }

  /** A stable sort by key, which is what `Array.prototype.sort` does. */
  function SortByKey(h: Host, ts: seq<Target>): seq<Target> {
    if ts == [] then [] else Insert(h, ts[0], SortByKey(h, ts[1..]))
  }

  function MakeTarget(h: Host, w: World, system: string, titleField: string, key: string): Target
    requires TitleOf(w, system, titleField, key).Some?
  {
    var title := TitleOf(w, system, titleField, key).value;
    var summary := SummaryOf(w, system, key);
    Target(key, title, summary, FetchedAt(w, system, key), HashText(h, title), HashText(h, summary))
  }

  function MakeTargets(h: Host, w: World, system: string, titleField: string, keys: seq<string>): (ts: seq<Target>)
    requires forall k <- keys :: TitleOf(w, system, titleField, k).Some?
    ensures KeysOf(ts) == keys
    ensures forall t <- ts :: TitleOf(w, system, titleField, t.key) == Some(t.title)
                              && t.titleHash == HashText(h, t.title) && t.summaryHash == HashText(h, t.summary)
                              && t.summary == SummaryOf(w, system, t.key)
  {
    seq(|keys|, i requires 0 <= i < |keys| => MakeTarget(h, w, system, titleField, keys[i]))
  }

  datatype Refusal =
    | NoSuchPlan | MissingPlanHash | HashMismatch | AlreadyConfirmed | InvalidState
    | TargetReviewRequired | TargetMissingTitle | TargetReviewMismatch | MissingTargetSetHash
    | ActionUnavailable | NotLaunchable | MissingHumanConfirmation
    | DryRunMissing | DryRunStale | DryRunFailed | MissingDryRunHash | DryRunMismatch

  function BuildTargetSet(h: Host, w: World, p: Plan, keys: seq<string>, now: int): Result<TargetSet, Refusal> {
    var ks := NormalKeys(keys);
    var titleField := TitleField(w, p.system, p.action);
    if ks == [] then Err(TargetReviewRequired)
    else if exists k <- ks :: TitleOf(w, p.system, titleField, k).None? then Err(TargetMissingTitle)
    else Ok(TargetSet(p.id, p.system, p.action, now,
                      SortByKey(h, MakeTargets(h, w, p.system, titleField, ks))))
  }

  // ----- plans and jobs -----

  datatype Status =
    | Planned | Refused | DryRunning | DryFailed | AwaitingConfirmation | Queued | Succeeded | Failed

  datatype DryStatus = Passed | NotPassed | Stale | ReadSucceeded | ReadFailed

  datatype DryRun = DryRun(
    status: DryStatus, jobId: Option<nat>, results: Option<seq<string>>, hash: Option<Hash>,
    planHash: Option<Hash>, targetSetHash: Option<Hash>)

  datatype Confirmation = Confirmation(confirmedAt: int, jobId: nat, dryRunHash: Option<Hash>)

  datatype Plan = Plan(
    id: string, system: string, action: string, readOnly: bool, recipeActionHash: Option<Hash>,
    planHash: Hash, status: Status, targetSetHash: Option<Hash>, targets: Option<TargetSet>,
    dryRun: Option<DryRun>, confirmation: Option<Confirmation>, jobId: Option<nat>)

  datatype Stage = Dry | Live | Read

  /** What a job's `onFinish` is told: clean exit, and the `status` of each result if there is a result list. */
  datatype Outcome = Outcome(done: bool, results: Option<seq<string>>)

  datatype Ending = Waiting | Dropped | Finished(outcome: Outcome)

  /** One entry of the serial queue, with the hashes and the targets its `enqueue` call captured. */
  datatype Job = Job(
    planId: string, stage: Stage, planHash: Hash, targetSetHash: Option<Hash>, targets: seq<Target>, ending: Ending)

  /** The `(key, title)` list written to the targets file. */
  function Staged(ts: seq<Target>): seq<(string, string)> {
    seq(|ts|, i requires 0 <= i < |ts| => (ts[i].key, ts[i].title))
  }

  /** All plans, and every job ever enqueued: `jobs[..settled]` have ended, in queue order. */
  datatype State = State(world: World, plans: map<string, Plan>, jobs: seq<Job>, settled: nat)

  predicate CanEditTargets(p: Plan) {
    p.status in {Planned, DryFailed, DryRunning, AwaitingConfirmation} && p.confirmation.None?
  }

  predicate AllDryOk(results: Option<seq<string>>) {
    results.Some? && |results.value| > 0 && forall r <- results.value :: r == "dry-ok"
  }

  predicate DryRunPassed(p: Plan) {
    && p.dryRun.Some?
    && p.dryRun.value.status == Passed
    && p.dryRun.value.planHash == Some(p.planHash)
    && p.dryRun.value.targetSetHash == p.targetSetHash
    && AllDryOk(p.dryRun.value.results)
  }

  function ApplyTargets(h: Host, p: Plan, ts: TargetSet): Plan {
    var reviewed := Some(HashTargetSet(h, ts));
    var changed := p.targetSetHash.Some? && p.targetSetHash != reviewed;
    var q := p.(targetSetHash := reviewed, targets := Some(ts));
    if changed then q.(status := Planned, dryRun := None, confirmation := None, jobId := None) else q
  }

  function SaveTargets(h: Host, w: World, p: Plan, keys: seq<string>, now: int): Result<Plan, Refusal> {
    if !CanEditTargets(p) then Err(if p.confirmation.Some? then AlreadyConfirmed else InvalidState)
    else match BuildTargetSet(h, w, p, keys, now)
      case Err(e) => Err(e)
      case Ok(ts) => Ok(ApplyTargets(h, p, ts))
  }

  function VerifyTargetSet(h: Host, w: World, p: Plan, now: int): Option<Refusal> {
    if p.targets.None? || p.targetSetHash.None? then Some(TargetReviewRequired)
    else match BuildTargetSet(h, w, p, KeysOf(p.targets.value.targets), now)
      case Err(e) => Some(e)
      case Ok(rebuilt) => if Some(HashTargetSet(h, rebuilt)) != p.targetSetHash then Some(TargetReviewMismatch) else None
  }

  function VerifyRecipe(h: Host, w: World, p: Plan): Option<Refusal> {
    if IsReadAction(p.action) then if p.recipeActionHash.Some? then Some(HashMismatch) else None
    else if (p.system, p.action) !in w.actions then Some(ActionUnavailable)
    else if p.recipeActionHash.Some?
            && p.recipeActionHash != Some(ActionHash(h, p.action, w.actions[(p.system, p.action)]))
    then Some(HashMismatch)
    else None
  }

  function CheckPlanHash(p: Plan, supplied: Option<Hash>): Option<Refusal> {
    if supplied.None? then Some(MissingPlanHash)
    else if supplied.value != p.planHash then Some(HashMismatch) else None
  }

  function FirstOf(a: Option<Refusal>, b: Option<Refusal>): Option<Refusal> { if a.Some? then a else b }

  // ----- requests and completions, one atomic step each -----

  datatype Event =
    | Sync(world: World)
    | Create(id: string, system: string, action: string)
    | ReviewTargets(id: string, planHash: Option<Hash>, keys: seq<string>, now: int)
    | StartDryRun(id: string, planHash: Option<Hash>, newKeys: Option<seq<string>>, now: int)
    | Confirm(id: string, planHash: Option<Hash>, humanConfirm: bool, targetSetHash: Option<Hash>,
              dryRunHash: Option<Hash>, now: int)
    | FinishJob(outcome: Outcome, expectedStatus: string)
    | DropJob

  function NewPlan(h: Host, w: World, id: string, system: string, action: string): Plan {
    var readOnly := IsReadAction(action);
    var known := readOnly || (system, action) in w.actions;
    var actionHash := if !readOnly && known then Some(ActionHash(h, action, w.actions[(system, action)])) else None;
    Plan(id, system, action, readOnly, actionHash, Sha256(CPlanCore(id, system, action, actionHash)),
         if known then Planned else Refused, None, None, None, None, None)
  }

  function Enqueued(s: State, p: Plan, stage: Stage): State {
    s.(jobs := s.jobs + [Job(p.id, stage, p.planHash, p.targetSetHash,
                             if p.targets.Some? then p.targets.value.targets else [], Waiting)])
  }

  function Put(s: State, p: Plan): State { s.(plans := s.plans[p.id := p]) }

  /** The read branch of the dry-run route: a query answers at once, other reads become a job. */
  function StartRead(s: State, p: Plan): State {
    if p.action == "query" then
      Put(s, p.(status := Succeeded, dryRun := Some(DryRun(ReadSucceeded, None, None, Some(Sha256(CNothing)), None, None))))
    else
      Put(Enqueued(s, p, Read), p.(status := Queued, jobId := Some(|s.jobs|)))
  }

  function DryRunRefusal(h: Host, w: World, p: Plan, now: int): Option<Refusal> {
    FirstOf(VerifyRecipe(h, w, p), FirstOf(VerifyTargetSet(h, w, p, now),
            if p.system !in w.launchable then Some(NotLaunchable) else None))
  }

  function StartDryRunStep(h: Host, s: State, p: Plan, planHash: Option<Hash>, keys: Option<seq<string>>, now: int)
    : (State, Option<Refusal>)
  {
    if CheckPlanHash(p, planHash).Some? then (s, CheckPlanHash(p, planHash))
    else if !CanEditTargets(p) then (s, Some(if p.confirmation.Some? then AlreadyConfirmed else InvalidState))
    else
      var saved := if keys.Some? then SaveTargets(h, s.world, p, keys.value, now) else Ok(p);
      if saved.Err? then (s, Some(saved.error))
      else
        var s1 := if keys.Some? then Put(s, saved.value) else s;
        var working := saved.value;
        if working.readOnly then (StartRead(s1, working), None)
        else
          var refusal := DryRunRefusal(h, s.world, working, now);
          if refusal.Some? then (s1, refusal)
          else (Put(Enqueued(s1, working, Dry), working.(status := DryRunning, jobId := Some(|s.jobs|))), None)
  }

  function DryRunGate(p: Plan, dryRunHash: Option<Hash>): Option<Refusal> {
    if !DryRunPassed(p) then
      Some(if p.dryRun.None? then DryRunMissing
           else if p.dryRun.value.targetSetHash.Some? && p.dryRun.value.targetSetHash != p.targetSetHash then DryRunStale
           else DryRunFailed)
    else if p.status != AwaitingConfirmation then Some(InvalidState)
    else if dryRunHash.None? then Some(MissingDryRunHash)
    else if p.dryRun.value.hash.Some? && dryRunHash != p.dryRun.value.hash then Some(DryRunMismatch)
    else None
  }

  /** Why a confirm request is refused, in the order the route checks. */
  function ConfirmRefusal(h: Host, w: World, p: Plan, planHash: Option<Hash>, humanConfirm: bool,
                          targetSetHash: Option<Hash>, dryRunHash: Option<Hash>, now: int): Option<Refusal> {
    if CheckPlanHash(p, planHash).Some? then CheckPlanHash(p, planHash)
    else if p.confirmation.Some? then Some(AlreadyConfirmed)
    else if !humanConfirm then Some(MissingHumanConfirmation)
    else if targetSetHash.None? then Some(MissingTargetSetHash)
    else if targetSetHash != p.targetSetHash then Some(TargetReviewMismatch)
    else FirstOf(VerifyRecipe(h, w, p), FirstOf(VerifyTargetSet(h, w, p, now), FirstOf(DryRunGate(p, dryRunHash),
                 if p.system !in w.launchable then Some(NotLaunchable) else None)))
  }

  function Confirmed(s: State, p: Plan, now: int): State
    requires p.dryRun.Some?
  {
    Put(Enqueued(s, p, Live),
        p.(status := Queued, confirmation := Some(Confirmation(now, |s.jobs|, p.dryRun.value.hash)),
           jobId := Some(|s.jobs|)))
  }

  function CompletedDry(p: Plan, j: Job, jobId: nat, o: Outcome): Plan {
    var stale := j.targetSetHash.Some? && p.targetSetHash.Some? && j.targetSetHash != p.targetSetHash;
    var pass := !stale && o.done && AllDryOk(o.results);
    var dry := DryRun(if stale then Stale else if pass then Passed else NotPassed, Some(jobId), o.results,
                      Some(Sha256(if o.results.Some? then CResults(o.results.value) else CNothing)),
                      Some(j.planHash), if j.targetSetHash.Some? then j.targetSetHash else p.targetSetHash);
    p.(status := if pass then AwaitingConfirmation else if stale then Planned else DryFailed,
       dryRun := Some(dry), jobId := Some(jobId))
  }

  predicate LiveSucceeded(o: Outcome, expectedStatus: string) {
    var good := {"approved", "completed", expectedStatus};
    o.done && o.results.Some?
    && (exists r <- o.results.value :: r in good)
    && (forall r <- o.results.value :: r in good || r == "skipped")
  }

  function CompletedRead(p: Plan, jobId: nat, o: Outcome): Plan {
    p.(status := if o.done then Succeeded else Failed, jobId := Some(jobId),
       dryRun := Some(DryRun(if o.done then ReadSucceeded else ReadFailed, Some(jobId), o.results, None, None, None)))
  }

  /** What `onFinish` does to the plan row. */
  function Completed(p: Plan, j: Job, jobId: nat, o: Outcome, expectedStatus: string): Plan {
    match j.stage
    case Dry => CompletedDry(p, j, jobId, o)
    case Live => p.(status := if LiveSucceeded(o, expectedStatus) then Succeeded else Failed, jobId := Some(jobId))
    case Read => CompletedRead(p, jobId, o)
  }

  function FinishStep(s: State, o: Outcome, expectedStatus: string): State {
    if s.settled >= |s.jobs| then s
    else
      var j := s.jobs[s.settled];
      var s1 := s.(jobs := s.jobs[s.settled := j.(ending := Finished(o))], settled := s.settled + 1);
      if j.planId !in s.plans then s1
      else s1.(plans := s.plans[j.planId := Completed(s.plans[j.planId], j, s.settled, o, expectedStatus)])
  }

  function DropStep(s: State): State {
    if s.settled >= |s.jobs| then s
    else s.(jobs := s.jobs[s.settled := s.jobs[s.settled].(ending := Dropped)], settled := s.settled + 1)
  }

  function Step(h: Host, s: State, e: Event): State {
    match e
    case Sync(w) => s.(world := w)
    case Create(id, system, action) =>
      if id in s.plans then s else Put(s, NewPlan(h, s.world, id, system, action))
    case ReviewTargets(id, planHash, keys, now) =>
      if id !in s.plans || CheckPlanHash(s.plans[id], planHash).Some? then s
      else (match SaveTargets(h, s.world, s.plans[id], keys, now) case Ok(p) => Put(s, p) case Err(_) => s)
    case StartDryRun(id, planHash, keys, now) =>
      if id !in s.plans then s else StartDryRunStep(h, s, s.plans[id], planHash, keys, now).0
    case Confirm(id, planHash, human, tsHash, drHash, now) =>
      if id !in s.plans || ConfirmRefusal(h, s.world, s.plans[id], planHash, human, tsHash, drHash, now).Some? then s
      else Confirmed(s, s.plans[id], now)
    case FinishJob(o, expected) => FinishStep(s, o, expected)
    case DropJob => DropStep(s)
  }

  function Start(w: World): State { State(w, map[], [], 0) }

  function Run(h: Host, s: State, events: seq<Event>): State {
    if events == [] then s else Step(h, Run(h, s, events[..|events| - 1]), events[|events| - 1])
  }
}
