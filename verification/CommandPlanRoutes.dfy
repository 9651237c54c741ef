/** The route handlers and completion callback as the source runs them: rows updated in place, one request at a time. */
module CommandPlanRoutes {
  import opened Wrappers
  import opened CommandPlan
  import opened CommandPlanVerdicts
  import Spec = CommandPlan

  class PlanStore {
    const host: Host
    var world: World
    var plans: map<string, Plan>
    var jobs: seq<Job>
    var settled: nat

    ghost function Model(): State
      reads this
    {
      State(world, plans, jobs, settled)
    }

    constructor (host: Host, world: World)
      ensures this.host == host && Model() == Start(world)
    {
      this.host := host;
      this.world := world;
      plans, jobs, settled := map[], [], 0;
    }

    /** Resolve every key to a target, or list the keys without a title. */
    method BuildTargetSet(p: Plan, targetKeys: seq<string>, now: int) returns (r: Result<TargetSet, Refusal>)
      ensures r == Spec.BuildTargetSet(host, world, p, targetKeys, now)
    {
      var keys := NormalKeys(targetKeys);
      if keys == [] { return Err(TargetReviewRequired); }
      var titleField := TitleField(world, p.system, p.action);
      var targets: seq<Target> := [];
      var missing: seq<string> := [];
      for i := 0 to |keys|
        invariant missing == [] <==> forall k <- keys[..i] :: TitleOf(world, p.system, titleField, k).Some?
        invariant missing == [] ==> targets == MakeTargets(host, world, p.system, titleField, keys[..i])
      {
        assert keys[..i + 1] == keys[..i] + [keys[i]];
        if TitleOf(world, p.system, titleField, keys[i]).None? {
          missing := missing + [keys[i]];
        } else {
          targets := targets + [MakeTarget(host, world, p.system, titleField, keys[i])];
        }
      }
      assert keys[..|keys|] == keys;
      if missing != [] { return Err(TargetMissingTitle); }
      r := Ok(TargetSet(p.id, p.system, p.action, now, SortByKey(host, targets)));
    }

    method SaveTargets(p: Plan, targetKeys: seq<string>, now: int) returns (r: Result<Plan, Refusal>)
      modifies this`plans
      ensures r == Spec.SaveTargets(host, world, p, targetKeys, now)
      ensures plans == if r.Ok? then old(plans)[p.id := r.value] else old(plans)
    {
      if !CanEditTargets(p) {
        return Err(if p.confirmation.Some? then AlreadyConfirmed else InvalidState);
      }
      var built := BuildTargetSet(p, targetKeys, now);
      if built.Err? { return Err(built.error); }
      var hash := HashTargetSet(host, built.value);
      var row := p.(targetSetHash := Some(hash), targets := Some(built.value));
      if p.targetSetHash.Some? && p.targetSetHash.value != hash {
        row := row.(status := Planned, dryRun := None, confirmation := None, jobId := None);
      }
      plans := plans[p.id := row];
      r := Ok(row);
    }

    method Enqueue(p: Plan, stage: Stage) returns (jobId: nat)
      modifies this`jobs
      ensures Model() == Enqueued(old(Model()), p, stage) && jobId == old(|jobs|)
      ensures |jobs| == jobId + 1 && jobs[..jobId] == old(jobs) && jobs[jobId].ending == Waiting
    {
      jobId := |jobs|;
      var targets := if p.targets.Some? then p.targets.value.targets else [];
      jobs := jobs + [Job(p.id, stage, p.planHash, p.targetSetHash, targets, Waiting)];
    }

    method PostTargets(id: string, planHash: Option<Hash>, keys: seq<string>, now: int) returns (refusal: Option<Refusal>)
      requires forall k :: k in plans ==> plans[k].id == k
      modifies this`plans
      ensures Model() == Step(host, old(Model()), ReviewTargets(id, planHash, keys, now))
      ensures refusal.Some? ==> plans == old(plans)
    {
      if id !in plans { return Some(NoSuchPlan); }
      refusal := CheckPlanHash(plans[id], planHash);
      if refusal.Some? { return; }
      var saved := SaveTargets(plans[id], keys, now);
      refusal := if saved.Err? then Some(saved.error) else None;
    }

    method PostDryRun(id: string, planHash: Option<Hash>, keys: Option<seq<string>>, now: int)
      returns (refusal: Option<Refusal>)
      requires forall k :: k in plans ==> plans[k].id == k
      modifies this`plans, this`jobs
      ensures Model() == Step(host, old(Model()), StartDryRun(id, planHash, keys, now))
      ensures id in old(plans) ==> refusal == StartDryRunStep(host, old(Model()), old(plans)[id], planHash, keys, now).1
    {
      if id !in plans { return Some(NoSuchPlan); }
      var plan := plans[id];
      refusal := CheckPlanHash(plan, planHash);
      if refusal.Some? { return; }
      if !CanEditTargets(plan) {
        return Some(if plan.confirmation.Some? then AlreadyConfirmed else InvalidState);
      }
      var working := plan;
      if keys.Some? {
        var saved := SaveTargets(plan, keys.value, now);
        if saved.Err? { return Some(saved.error); }
        working := saved.value;
      }
      if working.readOnly {
        RunReadPlan(working);
        return None;
      }
      refusal := DryRunRefusal(host, world, working, now);
      if refusal.Some? { return; }
      var jobId := Enqueue(working, Dry);
      plans := plans[working.id := working.(status := DryRunning, jobId := Some(jobId))];
    }

    method RunReadPlan(p: Plan)
      modifies this`plans, this`jobs
      ensures Model() == StartRead(old(Model()), p)
      ensures old(jobs) <= jobs && forall i :: |old(jobs)| <= i < |jobs| ==> jobs[i].stage == Read
      ensures forall id :: id in old(plans) && id != p.id ==> id in plans && plans[id] == old(plans)[id]
    {
      if p.action == "query" {
        var summary := DryRun(ReadSucceeded, None, None, Some(Sha256(CNothing)), None, None);
        plans := plans[p.id := p.(status := Succeeded, dryRun := Some(summary))];
      } else {
        var jobId := Enqueue(p, Read);
        plans := plans[p.id := p.(status := Queued, jobId := Some(jobId))];
      }
    }

    method PostConfirm(id: string, planHash: Option<Hash>, humanConfirm: bool, targetSetHash: Option<Hash>,
                       dryRunHash: Option<Hash>, now: int) returns (refusal: Option<Refusal>)
      requires forall k :: k in plans ==> plans[k].id == k
      modifies this`plans, this`jobs
      ensures Model() == Step(host, old(Model()), Confirm(id, planHash, humanConfirm, targetSetHash, dryRunHash, now))
      ensures refusal.Some? <==> Model() == old(Model())
    {
      if id !in plans { return Some(NoSuchPlan); }
      var plan := plans[id];
      refusal := CheckPlanHash(plan, planHash);
      if refusal.Some? { return; }
      if plan.confirmation.Some? { return Some(AlreadyConfirmed); }
      if !humanConfirm { return Some(MissingHumanConfirmation); }
      if targetSetHash.None? { return Some(MissingTargetSetHash); }
      if plan.targetSetHash.None? || targetSetHash != plan.targetSetHash { return Some(TargetReviewMismatch); }
      refusal := VerifyRecipe(host, world, plan);
      if refusal.Some? { return; }
      refusal := VerifyTargetSet(host, world, plan, now);
      if refusal.Some? { return; }
      refusal := DryRunGate(plan, dryRunHash);
      if refusal.Some? { return; }
      if plan.system !in world.launchable { return Some(NotLaunchable); }
      var jobId := Enqueue(plan, Live);
      var confirmation := Confirmation(now, jobId, plan.dryRun.value.hash);
      plans := plans[plan.id := plan.(status := Queued, confirmation := Some(confirmation), jobId := Some(jobId))];
    }

    /** The head of the serial queue ends and reports to `storeJobCompletion`. */
    method JobFinished(o: Outcome, expectedStatus: string)
      requires settled < |jobs|
      modifies this`plans, this`jobs, this`settled
      ensures Model() == Step(host, old(Model()), FinishJob(o, expectedStatus))
      ensures var j := old(jobs)[old(settled)];
              j.planId in old(plans) && j.stage == Live
              ==> plans[j.planId].status == if LiveWentWell(o, expectedStatus) then Succeeded else Failed
    {
      var jobId, j := settled, jobs[settled];
      jobs := jobs[jobId := j.(ending := Finished(o))];
      settled := settled + 1;
      if j.planId !in plans { return; }
      var row := plans[j.planId];
      match j.stage {
        case Dry =>
          var stale := j.targetSetHash.Some? && row.targetSetHash.Some? && j.targetSetHash != row.targetSetHash;
          var pass := !stale && o.done && AllDryOk(o.results);
          var resultHash := Sha256(if o.results.Some? then CResults(o.results.value) else CNothing);
          var dry := DryRun(if stale then Stale else if pass then Passed else NotPassed, Some(jobId), o.results,
                            Some(resultHash), Some(j.planHash),
                            if j.targetSetHash.Some? then j.targetSetHash else row.targetSetHash);
          row := row.(dryRun := Some(dry), jobId := Some(jobId),
                      status := if pass then AwaitingConfirmation else if stale then Planned else DryFailed);
        case Live =>
          var ok := LiveVerdict(o, expectedStatus);
          WentWellIsSucceeded(o, expectedStatus);
          row := row.(status := if ok then Succeeded else Failed, jobId := Some(jobId));
        case Read =>
          row := CompletedRead(row, jobId, o);
      }
      plans := plans[j.planId := row];
    }

    method LiveVerdict(o: Outcome, expectedStatus: string) returns (ok: bool)
      ensures ok <==> LiveWentWell(o, expectedStatus)
    {
      if !o.done || o.results.None? { return false; }
      var good := {"approved", "completed", expectedStatus};
      var results := o.results.value;
      var completed := 0;
      ok := true;
      for i := 0 to |results|
        invariant completed > 0 <==> exists j :: 0 <= j < i && results[j] in good
        invariant ok <==> forall j :: 0 <= j < i ==> results[j] in good || results[j] == "skipped"
      {
        if results[i] in good { completed := completed + 1; }
        else if results[i] != "skipped" { ok := false; }
      }
      ok := ok && completed > 0;
    }
  }
}
