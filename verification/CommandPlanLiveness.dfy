/** The other half of the command-plan protocol: the gates do open, so its safety theorems are not about nothing. */
module CommandPlanLiveness {
  import opened Wrappers
  import opened CommandPlan
  import opened CommandPlanSafety

  /** A review just taken is current, so it verifies again as long as nothing is synced in between. */
  lemma ReviewIsCurrent(h: Host, w: World, p: Plan, keys: seq<string>, now: int)
    requires Collates(h) && BuildTargetSet(h, w, p, keys, now).Ok?
    ensures ReviewCurrent(h, w, p.system, p.action, BuildTargetSet(h, w, p, keys, now).value.targets)
  {
    var titleField := TitleField(w, p.system, p.action);
    NormalKeysIsNormal(keys);
    MadeIsBuildable(h, w, p.system, titleField, NormalKeys(keys));
    var made := MakeTargets(h, w, p.system, titleField, NormalKeys(keys));
    SortSorts(h, made);
    var sorted := SortByKey(h, made);
    forall i | 0 <= i < |sorted|
      ensures TitleOf(w, p.system, titleField, sorted[i].key) == Some(sorted[i].title)
      ensures SummaryOf(w, p.system, sorted[i].key) == sorted[i].summary
    {
      assert sorted[i] in sorted && sorted[i] in made;
    }
  }

  /** A plan whose action can run now, right after its review. */
  ghost predicate Reviewed(h: Host, w: World, p: Plan) {
    && !p.readOnly && !IsReadAction(p.action) && (p.system, p.action) in w.actions && p.system in w.launchable
    && p.recipeActionHash == Some(ActionHash(h, p.action, w.actions[(p.system, p.action)]))
    && TargetsOk(h, p) && p.targets.Some? && ReviewCurrent(h, w, p.system, p.action, p.targets.value.targets)
    && p.confirmation.None?
  }

  lemma DryRunStarts(h: Host, s: State, p: Plan, now: int)
    requires Collates(h) && Reviewed(h, s.world, p) && p.status == Planned
    ensures StartDryRunStep(h, s, p, Some(p.planHash), None, now)
            == (Put(Enqueued(s, p, Dry), p.(status := DryRunning, jobId := Some(|s.jobs|))), None)
  {
    VerifyIffCurrent(h, s.world, p, now);
    hide ReviewCurrent, VerifyTargetSet, TargetsOk;
  }

  lemma DryRunPasses(p: Plan, j: Job, jobId: nat, results: seq<string>)
    requires j.planHash == p.planHash && j.targetSetHash == p.targetSetHash && p.targetSetHash.Some?
    requires AllDryOk(Some(results))
    ensures var q := CompletedDry(p, j, jobId, Outcome(true, Some(results)));
            q.status == AwaitingConfirmation && DryRunPassed(q) && q.dryRun.value.hash == Some(Sha256(CResults(results)))
  {}

  /** With the right hashes and a human's word, a current plan that awaits confirmation is accepted. */
  lemma ConfirmIsAccepted(h: Host, w: World, p: Plan, now: int)
    requires Collates(h) && Reviewed(h, w, p) && p.status == AwaitingConfirmation && DryRunPassed(p)
    requires p.dryRun.value.hash.Some?
    ensures ConfirmRefusal(h, w, p, Some(p.planHash), true, p.targetSetHash, p.dryRun.value.hash, now).None?
  {
    VerifyIffCurrent(h, w, p, now);
    hide ReviewCurrent, VerifyTargetSet, TargetsOk;
  }

  lemma RunOne(h: Host, s: State, events: seq<Event>, e: Event)
    ensures Run(h, s, events + [e]) == Step(h, Run(h, s, events), e)
  {
    assert (events + [e])[..|events|] == events;
  }

  lemma RunNone(h: Host, s: State)
    ensures Run(h, s, []) == s
  {}

  /** The plan just created and reviewed. */
  lemma FirstReview(h: Host, w: World, id: string, system: string, action: string, keys: seq<string>, now: int) returns (p: Plan)
    requires Collates(h) && !IsReadAction(action) && (system, action) in w.actions && system in w.launchable
    requires BuildTargetSet(h, w, NewPlan(h, w, id, system, action), keys, now).Ok?
    ensures SaveTargets(h, w, NewPlan(h, w, id, system, action), keys, now) == Ok(p)
    ensures p.id == id && Reviewed(h, w, p) && p.status == Planned && p.targetSetHash.Some?
  {
    hide ReviewCurrent, BuildTargetSet, Built, TitlesCurrent, MakeTargets, SortByKey, NormalKeys, Sorted;
    var p0 := NewPlan(h, w, id, system, action);
    ReviewIsCurrent(h, w, p0, keys, now);
    ReviewIsBuilt(h, w, p0, keys, now);
    p := ApplyTargets(h, p0, BuildTargetSet(h, w, p0, keys, now).value);
  }

  lemma ReviewStep(h: Host, s: State, id: string, keys: seq<string>, now: int, p: Plan)
    requires id in s.plans && SaveTargets(h, s.world, s.plans[id], keys, now) == Ok(p)
    ensures Step(h, s, ReviewTargets(id, Some(s.plans[id].planHash), keys, now)) == Put(s, p)
  {
    hide SaveTargets;
  }

  /** The state after creating a plan and reviewing it. */
  lemma ReviewedState(h: Host, w: World, id: string, system: string, action: string, keys: seq<string>, now: int)
    returns (events: seq<Event>, p: Plan)
    requires Collates(h) && !IsReadAction(action) && (system, action) in w.actions && system in w.launchable
    requires BuildTargetSet(h, w, NewPlan(h, w, id, system, action), keys, now).Ok?
    ensures Run(h, Start(w), events) == State(w, map[id := p], [], 0)
    ensures p.id == id && Reviewed(h, w, p) && p.status == Planned && p.targetSetHash.Some?
  {
    var p0 := NewPlan(h, w, id, system, action);
    assert p0.id == id;
    p := FirstReview(h, w, id, system, action, keys, now);
    hide SaveTargets, Reviewed, NewPlan, BuildTargetSet, IsReadAction;
    var create, review := Create(id, system, action), ReviewTargets(id, Some(p0.planHash), keys, now);
    assert Step(h, Start(w), create) == Put(Start(w), p0) == State(w, map[id := p0], [], 0);
    ReviewStep(h, State(w, map[id := p0], [], 0), id, keys, now, p);
    hide Step, Run, Put;
    RunOne(h, Start(w), [], create);
    RunNone(h, Start(w));
    assert [] + [create] == [create];
    RunOne(h, Start(w), [create], review);
    events := [create] + [review];
    assert map[id := p0][id := p] == map[id := p];
  }

  function DryJob(p: Plan): Job
    requires p.targets.Some?
  {
    Job(p.id, Dry, p.planHash, p.targetSetHash, p.targets.value.targets, Waiting)
  }

  lemma ReviewedHasTargets(h: Host, w: World, p: Plan)
    requires Reviewed(h, w, p)
    ensures p.targets.Some?
  {}

  lemma DryRunStep(h: Host, w: World, p: Plan, now: int)
    requires Collates(h) && Reviewed(h, w, p) && p.status == Planned
    ensures Step(h, State(w, map[p.id := p], [], 0), StartDryRun(p.id, Some(p.planHash), None, now))
            == State(w, map[p.id := p.(status := DryRunning, jobId := Some(0))], [DryJob(p)], 0)
  {
    hide StartDryRunStep, Reviewed;
    var s := State(w, map[p.id := p], [], 0);
    assert p.targets.Some? by { ReviewedHasTargets(h, w, p); }
    DryRunStarts(h, s, p, now);
    assert s.plans[p.id := p.(status := DryRunning, jobId := Some(0))] == map[p.id := p.(status := DryRunning, jobId := Some(0))];
  }

  const ALL_DRY_OK := Outcome(true, Some(["dry-ok"]))

  lemma FinishesDry(h: Host, w: World, p: Plan, j: Job)
    requires j.planId == p.id
    ensures Step(h, State(w, map[p.id := p], [j], 0), FinishJob(ALL_DRY_OK, "approved"))
            == State(w, map[p.id := Completed(p, j, 0, ALL_DRY_OK, "approved")], [j.(ending := Finished(ALL_DRY_OK))], 1)
  {
    hide Completed;
    assert map[p.id := p][p.id := Completed(p, j, 0, ALL_DRY_OK, "approved")] == map[p.id := Completed(p, j, 0, ALL_DRY_OK, "approved")];
  }

  lemma ConfirmStep(h: Host, s: State, id: string, p: Plan, now: int)
    requires id in s.plans && s.plans[id] == p && p.id == id && p.dryRun.Some?
    requires ConfirmRefusal(h, s.world, p, Some(p.planHash), true, p.targetSetHash, p.dryRun.value.hash, now).None?
    ensures GoesLive(s, Step(h, s, Confirm(id, Some(p.planHash), true, p.targetSetHash, p.dryRun.value.hash, now)), id)
  {
    hide ConfirmRefusal;
  }

  lemma FinishedPlan(h: Host, w: World, p: Plan, j: Job, now: int) returns (q: Plan)
    requires Collates(h) && Reviewed(h, w, p) && p.targetSetHash.Some?
    requires j.planHash == p.planHash && j.targetSetHash == p.targetSetHash && j.stage == Dry
    ensures q == Completed(p, j, 0, ALL_DRY_OK, "approved")
    ensures q.id == p.id && q.dryRun.Some? && q.dryRun.value.hash.Some?
    ensures ConfirmRefusal(h, w, q, Some(q.planHash), true, q.targetSetHash, q.dryRun.value.hash, now).None?
  {
    q := CompletedDry(p, j, 0, ALL_DRY_OK);
    DryRunPasses(p, j, 0, ["dry-ok"]);
    assert Reviewed(h, w, q);
    ConfirmIsAccepted(h, w, q, now);
  }

  /**
  Wherever an action can run and its review succeeds, creating the plan, reviewing it, a dry run that finishes all
  `dry-ok` and a human confirmation bring it live.
  */
  lemma LiveIsReachable(h: Host, w: World, id: string, system: string, action: string, keys: seq<string>, now: int)
    returns (events: seq<Event>, e: Event)
    requires Collates(h) && !IsReadAction(action) && (system, action) in w.actions && system in w.launchable
    requires BuildTargetSet(h, w, NewPlan(h, w, id, system, action), keys, now).Ok?
    ensures GoesLive(Run(h, Start(w), events), Step(h, Run(h, Start(w), events), e), id)
  {
    var before, p := ReviewedState(h, w, id, system, action, keys, now);
    var running, job := p.(status := DryRunning, jobId := Some(0)), DryJob(p);
    var q := FinishedPlan(h, w, running, job, now);
    hide Reviewed, BuildTargetSet, NewPlan, ConfirmRefusal, Completed, Step, GoesLive, Run;
    var dry, finish := StartDryRun(id, Some(p.planHash), None, now), FinishJob(ALL_DRY_OK, "approved");
    DryRunStep(h, w, p, now);
    RunOne(h, Start(w), before, dry);
    FinishesDry(h, w, running, job);
    RunOne(h, Start(w), before + [dry], finish);
    events := before + [dry] + [finish];
    var s := State(w, map[id := q], [job.(ending := Finished(ALL_DRY_OK))], 1);
    assert Run(h, Start(w), events) == s;
    ConfirmStep(h, s, id, q, now);
    e := Confirm(id, Some(q.planHash), true, q.targetSetHash, q.dryRun.value.hash, now);
  }
}
