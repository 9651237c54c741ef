/** What the protocol does to jobs over whole runs: the queue only grows at its end, and read plans stay reads. */
module CommandPlanJobs {
  import opened Wrappers
  import opened CommandPlan
  import opened CommandPlanSafety

  // ----- the queue of jobs -----

  /** `t` has the jobs of `s`, in their places and with what they captured, and ended jobs as they ended. */
  predicate KeepsJobs(s: State, t: State) {
    && |s.jobs| <= |t.jobs| && s.settled <= t.settled
    && (forall i :: 0 <= i < |s.jobs| ==> t.jobs[i] == s.jobs[i].(ending := t.jobs[i].ending))
    && (forall i :: 0 <= i < |s.jobs| && i < s.settled ==> t.jobs[i] == s.jobs[i])
  }

  /** A job enqueued for a plan is the last one, waits, and captured the plan's hashes and reviewed targets. */
  lemma EnqueuedIsLast(s: State, p: Plan, stage: Stage, q: Plan)
    ensures var t := Put(Enqueued(s, p, stage), q);
            && KeepsJobs(s, t) && |t.jobs| == |s.jobs| + 1 && t.settled == s.settled
            && var j := t.jobs[|s.jobs|];
               j.planId == p.id && j.stage == stage && j.ending == Waiting && j.planHash == p.planHash
               && j.targetSetHash == p.targetSetHash && (p.targets.Some? ==> j.targets == p.targets.value.targets)
  {}

  lemma StartDryRunKeepsJobs(h: Host, s: State, p: Plan, planHash: Option<Hash>, keys: Option<seq<string>>, now: int)
    ensures KeepsJobs(s, StartDryRunStep(h, s, p, planHash, keys, now).0)
  {
    hide SaveTargets, DryRunRefusal, CheckPlanHash, CanEditTargets;
  }

  lemma StepKeepsJobs(h: Host, s: State, e: Event)
    ensures KeepsJobs(s, Step(h, s, e))
  {
    hide SaveTargets, ConfirmRefusal, CheckPlanHash, StartDryRunStep, Completed;
    if e.StartDryRun? && e.id in s.plans {
      StartDryRunKeepsJobs(h, s, s.plans[e.id], e.planHash, e.newKeys, e.now);
    }
  }

  /** Over every run: no job is lost, moved or given other targets, and an ended job stays as it ended. */
  lemma {:induction false} QueuedJobsAreKept(h: Host, s: State, events: seq<Event>)
    ensures KeepsJobs(s, Run(h, s, events))
  {
    if events != [] {
      hide Step;
      var front := events[..|events| - 1];
      QueuedJobsAreKept(h, s, front);
      StepKeepsJobs(h, Run(h, s, front), events[|events| - 1]);
    }
  }

  // ----- read plans -----

  /** Read jobs belong to plans that read, dry and live jobs to plans that write. */
  ghost predicate StagesFit(s: State) {
    forall i :: 0 <= i < |s.jobs| ==>
      s.jobs[i].planId in s.plans && (s.jobs[i].stage == Read <==> s.plans[s.jobs[i].planId].readOnly)
  }

  predicate SameReadOnly(s: State, t: State) {
    forall id :: id in s.plans ==> id in t.plans && t.plans[id].readOnly == s.plans[id].readOnly
  }

  lemma ReviewKeepsReadOnly(h: Host, w: World, p: Plan, keys: seq<string>, now: int)
    ensures SaveTargets(h, w, p, keys, now).Ok?
            ==> SaveTargets(h, w, p, keys, now).value.readOnly == p.readOnly && SaveTargets(h, w, p, keys, now).value.id == p.id
  {
    hide BuildTargetSet, CanEditTargets;
  }

  lemma DryRunKeepsReads(h: Host, s: State, p: Plan, planHash: Option<Hash>, keys: Option<seq<string>>, now: int)
    requires p.id in s.plans && s.plans[p.id] == p && StagesFit(s)
    ensures var t := StartDryRunStep(h, s, p, planHash, keys, now).0; SameReadOnly(s, t) && StagesFit(t)
  {
    hide SaveTargets, DryRunRefusal, CheckPlanHash, CanEditTargets;
    if keys.Some? { ReviewKeepsReadOnly(h, s.world, p, keys.value, now); }
  }

  lemma ConfirmedIsWriter(h: Host, s: State, e: Event)
    requires Collates(h) && Inv(h, s) && StagesFit(s) && e.Confirm? && e.id in s.plans
    requires ConfirmRefusal(h, s.world, s.plans[e.id], e.planHash, e.humanConfirm, e.targetSetHash, e.dryRunHash, e.now).None?
    ensures !s.plans[e.id].readOnly && s.plans[e.id].id == e.id
  {
    var d := AcceptedConfirm(h, s, s.plans[e.id], e);
    hide Inv, ConfirmRefusal;
    assert s.jobs[d].stage == Dry && s.jobs[d].planId == e.id;
  }

  lemma PutKeepsReads(s: State, p: Plan)
    requires StagesFit(s) && p.id in s.plans && s.plans[p.id].readOnly == p.readOnly
    ensures SameReadOnly(s, Put(s, p)) && StagesFit(Put(s, p))
  {}

  lemma ConfirmKeepsReads(s: State, p: Plan, now: int)
    requires StagesFit(s) && p.id in s.plans && s.plans[p.id] == p && !p.readOnly && p.dryRun.Some?
    ensures SameReadOnly(s, Confirmed(s, p, now)) && StagesFit(Confirmed(s, p, now))
  {}

  lemma FinishKeepsReads(s: State, o: Outcome, expected: string)
    requires StagesFit(s)
    ensures SameReadOnly(s, FinishStep(s, o, expected)) && StagesFit(FinishStep(s, o, expected))
  {
    if s.settled < |s.jobs| && s.jobs[s.settled].planId in s.plans {
      CompletedKeepsReadOnly(s.plans[s.jobs[s.settled].planId], s.jobs[s.settled], s.settled, o, expected);
    }
    hide Completed;
  }

  lemma CompletedKeepsReadOnly(p: Plan, j: Job, jobId: nat, o: Outcome, expected: string)
    ensures Completed(p, j, jobId, o, expected).readOnly == p.readOnly
  {
    hide LiveSucceeded, AllDryOk;
  }

  lemma DropKeepsReads(s: State)
    requires StagesFit(s)
    ensures SameReadOnly(s, DropStep(s)) && StagesFit(DropStep(s))
  {}

  lemma StepKeepsReads(h: Host, s: State, e: Event)
    requires Collates(h) && Inv(h, s) && StagesFit(s)
    ensures SameReadOnly(s, Step(h, s, e)) && StagesFit(Step(h, s, e))
  {
    assert forall id :: id in s.plans ==> s.plans[id].id == id;
    hide Inv, SaveTargets, ConfirmRefusal, CheckPlanHash, StartDryRunStep, NewPlan, FinishStep, DropStep, Confirmed, Put;
    match e
    case Sync(w) => SyncKeepsReads(s, w);
    case ReviewTargets(id, planHash, keys, now) =>
      if id in s.plans && SaveTargets(h, s.world, s.plans[id], keys, now).Ok? {
        ReviewKeepsReadOnly(h, s.world, s.plans[id], keys, now);
        PutKeepsReads(s, SaveTargets(h, s.world, s.plans[id], keys, now).value);
      }
    case StartDryRun(id, planHash, keys, now) =>
      if id in s.plans { DryRunKeepsReads(h, s, s.plans[id], planHash, keys, now); }
    case Confirm(id, planHash, human, th, dh, now) =>
      if id in s.plans && ConfirmRefusal(h, s.world, s.plans[id], planHash, human, th, dh, now).None? {
        ConfirmedIsWriter(h, s, e);
        ConfirmKeepsReads(s, s.plans[id], now);
      }
    case Create(id, system, action) => NewPlanKeepsReads(h, s, id, system, action);
    case FinishJob(o, expected) => FinishKeepsReads(s, o, expected);
    case DropJob => DropKeepsReads(s);
  }

  lemma SyncKeepsReads(s: State, w: World)
    requires StagesFit(s)
    ensures SameReadOnly(s, s.(world := w)) && StagesFit(s.(world := w))
  {}

  lemma NewPlanKeepsReads(h: Host, s: State, id: string, system: string, action: string)
    requires StagesFit(s)
    ensures id !in s.plans
            ==> var t := Put(s, NewPlan(h, s.world, id, system, action)); SameReadOnly(s, t) && StagesFit(t)
  {}

  lemma {:induction false} RunKeepsReads(h: Host, w: World, events: seq<Event>)
    requires Collates(h)
    ensures StagesFit(Run(h, Start(w), events))
  {
    if events != [] {
      var front := events[..|events| - 1];
      RunKeepsReads(h, w, front);
      ReachableIsSafe(h, w, front);
      StepKeepsReads(h, Run(h, Start(w), front), events[|events| - 1]);
    }
  }

  /** A read plan never goes live, nor to a dry run: whatever is requested, its jobs are read jobs. */
  lemma ReadPlansNeverGoLive(h: Host, w: World, events: seq<Event>, i: nat)
    requires Collates(h)
    requires var s := Run(h, Start(w), events);
             i < |s.jobs| && s.jobs[i].planId in s.plans && s.plans[s.jobs[i].planId].readOnly
    ensures Run(h, Start(w), events).jobs[i].stage == Read
  {
    RunKeepsReads(h, w, events);
  }
}
