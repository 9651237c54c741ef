/** The statuses recorded for dry, live and read jobs, in terms of what the jobs themselves reported. */
module CommandPlanVerdicts {
  import opened Wrappers
  import opened CommandPlan
  import opened CommandPlanSafety
  import opened CommandPlanJobs
  import opened CommandPlanLiveness
  import opened CommandPlanSystem
  import SerialQueue
  import Text

  // ----- what a job can report -----

  /** A live run that completed something and failed at nothing: whatever it did not complete it skipped. */
  predicate LiveWentWell(o: Outcome, expectedStatus: string) {
    && o.done && o.results.Some?
    && var rs := o.results.value;
       (exists i :: 0 <= i < |rs| && (rs[i] == "approved" || rs[i] == "completed" || rs[i] == expectedStatus))
       && (forall i :: 0 <= i < |rs| ==>
             rs[i] == "approved" || rs[i] == "completed" || rs[i] == expectedStatus || rs[i] == "skipped")
  }

  /** A dry run that came to its end and found every target in order, at least one. */
  predicate DryWentWell(o: Outcome) {
    && o.done && o.results.Some? && o.results.value != []
    && forall i :: 0 <= i < |o.results.value| ==> o.results.value[i] == "dry-ok"
  }

  // ----- what the database says about a key -----

  /** The title of a key is that of its approval, unless it is blank, and else of its record; a blank title is none. */
  lemma TitleComesFrom(w: World, system: string, field: string, key: string)
    ensures var t := TitleOf(w, system, field, key);
            var approval := key in w.approvals && Text.Trim(w.approvals[key].title) != "";
            var recorded := (system, key) in w.records && field in w.records[(system, key)].data
                            && Text.Trim(w.records[(system, key)].data[field]) != "";
            && (approval ==> t == Some(w.approvals[key].title))
            && (!approval && recorded ==> t == Some(w.records[(system, key)].data[field]))
            && (t.None? <==> !approval && !recorded)
  {}

  /** A reviewed target carries the summary and the time of its approval, if there is one, and else of its record. */
  lemma TargetComesFrom(h: Host, w: World, system: string, field: string, key: string)
    requires TitleOf(w, system, field, key).Some?
    ensures var t := MakeTarget(h, w, system, field, key);
            && t.key == key && Some(t.title) == TitleOf(w, system, field, key)
            && t.titleHash == Sha256(CText(h.nfc(t.title))) && t.summaryHash == Sha256(CText(h.nfc(t.summary)))
            && (key in w.approvals ==> t.summary == w.approvals[key].summary && t.fetchedAt == Some(w.approvals[key].fetchedAt))
            && (key !in w.approvals && (system, key) in w.records
                ==> t.summary == w.records[(system, key)].summary && t.fetchedAt == Some(w.records[(system, key)].fetchedAt))
  {}

  // ----- live verdicts -----

  /** The report of the head job changes its own plan's row and nothing else of any plan. */
  lemma ReportTouchesOnePlan(h: Host, s: State, o: Outcome, expected: string, id: string)
    requires s.settled < |s.jobs| && id in s.plans && s.jobs[s.settled].planId != id
    ensures var t := Step(h, s, FinishJob(o, expected)); id in t.plans && t.plans[id] == s.plans[id]
  {
    hide Completed;
  }

  lemma WentWellIsSucceeded(o: Outcome, expected: string)
    ensures LiveSucceeded(o, expected) <==> LiveWentWell(o, expected)
    ensures o.done && AllDryOk(o.results) <==> DryWentWell(o)
  {
    if o.results.Some? {
      var rs := o.results.value;
      assert forall i :: 0 <= i < |rs| ==> rs[i] in rs;
    }
  }

  lemma LiveReportIsRecorded(h: Host, s: State, o: Outcome, expected: string)
    requires Inv(h, s) && s.settled < |s.jobs| && s.jobs[s.settled].stage == Live
    ensures var id, t := s.jobs[s.settled].planId, Step(h, s, FinishJob(o, expected));
            && id in s.plans && id in t.plans && LiveAt(t, s.settled, id) && Ended(t, s.settled)
            && t.plans[id].status == (if LiveWentWell(o, expected) then Succeeded else Failed)
            && t.plans[id] == s.plans[id].(status := t.plans[id].status, jobId := Some(s.settled))
  {
    assert JobOk(h, s, s.jobs[s.settled]);
    WentWellIsSucceeded(o, expected);
    hide LiveSucceeded, LiveWentWell, AllDryOk, DryWentWell;
  }

  /**
  In every run: when the live job of a plan reports, the plan's status says what the job reported, and it says so for
  ever after.
  */
  lemma LiveVerdictIsTheOutcome(h: Host, w: World, before: seq<Event>, o: Outcome, expected: string, after: seq<Event>)
    requires Collates(h)
    requires var s := Run(h, Start(w), before); s.settled < |s.jobs| && s.jobs[s.settled].stage == Live
    ensures var s := Run(h, Start(w), before);
            var id, t := s.jobs[s.settled].planId, Run(h, Step(h, s, FinishJob(o, expected)), after);
            && id in t.plans && t.plans[id].jobId == Some(s.settled)
            && t.plans[id].status == (if LiveWentWell(o, expected) then Succeeded else Failed)
  {
    var s := Run(h, Start(w), before);
    ReachableIsSafe(h, w, before);
    LiveReportIsRecorded(h, s, o, expected);
    RunOne(h, Start(w), before, FinishJob(o, expected));
    hide Run, Step, LiveWentWell, Inv, LiveAt, Ended;
    LiveVerdictIsFinal(h, w, before + [FinishJob(o, expected)], after, s.jobs[s.settled].planId, s.settled);
  }

  /** The same on the slot, where the job is named by its body and other jobs run before and after it. */
  lemma SystemVerdictIsTheOutcome(h: Host, w: World, before: seq<Action>, body: nat, r: Report, after: seq<Action>)
    requires Collates(h)
    requires var y := Play(h, Boot(w), before);
             && body < |y.slot.bodies| && y.slot.bodies[body] == SerialQueue.Running
             && JobAt(y.places, body) < |y.plan.jobs| && y.plan.jobs[JobAt(y.places, body)].stage == Live
    ensures var y := Play(h, Boot(w), before);
            var j := JobAt(y.places, body);
            var id, t := y.plan.jobs[j].planId, Play(h, Act(h, y, BodyEnds(body, Some(r))), after).plan;
            && id in t.plans && t.plans[id].jobId == Some(j)
            && t.plans[id].status == (if LiveWentWell(r.outcome, r.expectedStatus) then Succeeded else Failed)
  {
    var y := Play(h, Boot(w), before);
    var a := BodyEnds(body, Some(r));
    BootIsLinked(w);
    var first := SystemRefinesProtocol(h, Boot(w), before);
    RunningIsHead(y, body);
    LinkedSizes(y);
    ActIsStep(h, y, a);
    RunSingle(h, y.plan, FinishJob(r.outcome, r.expectedStatus));
    hide Play, Act, Linked, Step, Run, LiveWentWell;
    var second := SystemRefinesProtocol(h, Act(h, y, a), after);
    LiveVerdictIsTheOutcome(h, w, first, r.outcome, r.expectedStatus, second);
  }

  // ----- dry-run verdicts -----

  /** A recorded dry run is the report of an ended dry job of the plan, judged against the reviewed targets. */
  ghost predicate IsReport(s: State, p: Plan, r: DryRun) {
    && r.jobId.Some? && r.jobId.value < s.settled <= |s.jobs|
    && var j := s.jobs[r.jobId.value];
       && j.planId == p.id && j.stage == Dry && j.ending.Finished?
       && r.results == j.ending.outcome.results
       && r.hash == Some(Sha256(if r.results.Some? then CResults(r.results.value) else CNothing))
       && r.planHash == Some(j.planHash) == Some(p.planHash) && r.targetSetHash == j.targetSetHash
       && r.status == (if j.targetSetHash != p.targetSetHash then Stale
                       else if DryWentWell(j.ending.outcome) then Passed else NotPassed)
  }

  /** The dry-run side of a plan that writes. */
  ghost predicate DryRecordOk(s: State, p: Plan) {
    && (p.dryRun.Some? ==> IsReport(s, p, p.dryRun.value))
    && (p.status == AwaitingConfirmation ==> p.dryRun.Some? && p.dryRun.value.status == Passed)
    && (p.status == DryFailed ==> p.dryRun.Some? && p.dryRun.value.status == NotPassed)
    && (p.status == Planned && p.dryRun.Some? ==> p.dryRun.value.status == Stale)
  }

  ghost predicate Recorded(s: State) {
    forall id :: id in s.plans && !s.plans[id].readOnly ==> DryRecordOk(s, s.plans[id])
  }

  /** What the steps below build on. */
  ghost predicate Good(h: Host, s: State) { Collates(h) && Inv(h, s) && StagesFit(s) && Recorded(s) }

  lemma RecordSurvives(s: State, t: State, p: Plan, q: Plan)
    requires DryRecordOk(s, p) && q.id == p.id && q.planHash == p.planHash && q.targetSetHash == p.targetSetHash
    requires q.dryRun == p.dryRun && (q.status == p.status || q.status !in {AwaitingConfirmation, DryFailed, Planned})
    requires s.settled <= t.settled <= |t.jobs| && s.settled <= |s.jobs|
    requires forall i :: 0 <= i < s.settled ==> i < |t.jobs| && t.jobs[i] == s.jobs[i]
    ensures DryRecordOk(t, q)
  {
    hide DryWentWell;
  }

  /** An accepted review, field by field: a changed target set withdraws everything that was said about the old one. */
  lemma ReviewRecords(h: Host, w: World, p: Plan, keys: seq<string>, now: int)
    requires SaveTargets(h, w, p, keys, now).Ok?
    ensures BuildTargetSet(h, w, p, keys, now).Ok? && p.confirmation.None?
    ensures p.status in {Planned, DryFailed, DryRunning, AwaitingConfirmation}
    ensures var q, ts := SaveTargets(h, w, p, keys, now).value, BuildTargetSet(h, w, p, keys, now).value;
            && q.targets == Some(ts) && q.targetSetHash == Some(HashTargetSet(h, ts))
            && q == p.(targets := q.targets, targetSetHash := q.targetSetHash, status := q.status, dryRun := q.dryRun,
                       jobId := q.jobId)
            && (if p.targetSetHash.Some? && p.targetSetHash != q.targetSetHash
                then q.status == Planned && q.dryRun.None? && q.jobId.None?
                else q.status == p.status && q.dryRun == p.dryRun && q.jobId == p.jobId)
  {
    hide BuildTargetSet, HashTargetSet;
  }

  /** Exactly which review requests change a row. */
  lemma ReviewAcceptedIff(h: Host, s: State, id: string, planHash: Option<Hash>, keys: seq<string>, now: int)
    requires id in s.plans
    ensures var p := s.plans[id];
            Step(h, s, ReviewTargets(id, planHash, keys, now))
            == if planHash == Some(p.planHash) && p.confirmation.None?
                  && p.status in {Planned, DryFailed, DryRunning, AwaitingConfirmation}
                  && BuildTargetSet(h, s.world, p, keys, now).Ok?
               then Put(s, ApplyTargets(h, p, BuildTargetSet(h, s.world, p, keys, now).value)) else s
  {
    hide BuildTargetSet, ApplyTargets;
  }

  /** A plan with a recorded dry run has been reviewed. */
  lemma ReportHasReview(h: Host, s: State, p: Plan)
    requires Inv(h, s) && p.id in s.plans && s.plans[p.id] == p && p.dryRun.Some? && IsReport(s, p, p.dryRun.value)
    ensures p.targetSetHash.Some?
  {
    assert JobOk(h, s, s.jobs[p.dryRun.value.jobId.value]);
  }

  lemma ReviewKeepsRecord(h: Host, s: State, p: Plan, keys: seq<string>, now: int)
    requires Good(h, s) && p.id in s.plans && s.plans[p.id] == p && !p.readOnly
    requires SaveTargets(h, s.world, p, keys, now).Ok?
    ensures DryRecordOk(s, SaveTargets(h, s.world, p, keys, now).value)
  {
    ReviewRecords(h, s.world, p, keys, now);
    var q := SaveTargets(h, s.world, p, keys, now).value;
    assert DryRecordOk(s, p) && s.settled <= |s.jobs|;
    if p.dryRun.Some? { ReportHasReview(h, s, p); }
    hide SaveTargets, IsReport, Inv;
    if q.dryRun.Some? { RecordSurvives(s, s, p, q); }
  }

  lemma PutKeepsRecords(s: State, t: State, q: Plan)
    requires Recorded(s) && s.settled <= |s.jobs| && (q.readOnly || DryRecordOk(t, q))
    requires t.plans == s.plans[q.id := q] && t.settled == s.settled && s.jobs <= t.jobs
    ensures Recorded(t)
  {
    hide IsReport;
    forall id | id in t.plans && !t.plans[id].readOnly ensures DryRecordOk(t, t.plans[id]) {
      if id != q.id { RecordSurvives(s, t, s.plans[id], s.plans[id]); }
    }
  }

  /** What a dry-run request can do: nothing, or replace the row, perhaps with a job behind it. */
  lemma DryRunRequestShape(h: Host, s: State, p: Plan, planHash: Option<Hash>, keys: Option<seq<string>>, now: int, q: Plan)
    requires p.id in s.plans && s.plans[p.id] == p && q.id == p.id
    requires q == if keys.Some? && SaveTargets(h, s.world, p, keys.value, now).Ok?
                  then SaveTargets(h, s.world, p, keys.value, now).value else p
    ensures var t := StartDryRunStep(h, s, p, planHash, keys, now).0;
            && p.id in t.plans && t.plans == s.plans[p.id := t.plans[p.id]] && t.settled == s.settled && s.jobs <= t.jobs
            && (t == s || q.readOnly || t.plans[p.id] == q
                || t.plans[p.id] == q.(status := DryRunning, jobId := Some(|s.jobs|)))
            && (q.readOnly && t != s ==> t.plans[p.id].readOnly)
  {
    hide SaveTargets, DryRunRefusal, CheckPlanHash, CanEditTargets;
    assert s.plans[p.id := p] == s.plans;
  }

  lemma StartDryRunKeepsRecords(h: Host, s: State, p: Plan, planHash: Option<Hash>, keys: Option<seq<string>>, now: int)
    requires Good(h, s) && p.id in s.plans && s.plans[p.id] == p
    ensures Recorded(StartDryRunStep(h, s, p, planHash, keys, now).0)
  {
    assert s.settled <= |s.jobs| && (!p.readOnly ==> DryRecordOk(s, p));
    var q := p;
    if keys.Some? && SaveTargets(h, s.world, p, keys.value, now).Ok? {
      ReviewRecords(h, s.world, p, keys.value, now);
      if !p.readOnly { ReviewKeepsRecord(h, s, p, keys.value, now); }
      q := SaveTargets(h, s.world, p, keys.value, now).value;
    }
    DryRunRequestShape(h, s, p, planHash, keys, now, q);
    var t := StartDryRunStep(h, s, p, planHash, keys, now).0;
    hide SaveTargets, StartDryRunStep, DryRecordOk, Recorded, Inv;
    if t != s {
      if !q.readOnly { RecordSurvives(s, t, q, t.plans[p.id]); }
      PutKeepsRecords(s, t, t.plans[p.id]);
    }
  }

  lemma ConfirmKeepsRecords(s: State, p: Plan, now: int)
    requires Recorded(s) && s.settled <= |s.jobs| && p.id in s.plans && s.plans[p.id] == p && p.dryRun.Some?
    ensures Recorded(Confirmed(s, p, now))
  {
    var t := Confirmed(s, p, now);
    hide DryRecordOk, Recorded;
    if !p.readOnly { RecordSurvives(s, t, p, t.plans[p.id]) by { assert DryRecordOk(s, p) by { OneRecord(s, p); } } }
    PutKeepsRecords(s, t, t.plans[p.id]);
  }

  lemma OneRecord(s: State, p: Plan)
    requires Recorded(s) && p.id in s.plans && s.plans[p.id] == p && !p.readOnly
    ensures DryRecordOk(s, p)
  {}

  /** A dry job that reports: its plan awaits confirmation, is planned again, or has failed, by the report alone. */
  lemma DryReportIsRecorded(h: Host, s: State, o: Outcome, expected: string)
    requires Inv(h, s) && s.settled < |s.jobs| && s.jobs[s.settled].stage == Dry
    ensures var j, t := s.jobs[s.settled], Step(h, s, FinishJob(o, expected));
            && j.planId in s.plans && j.planId in t.plans
            && var p, q := s.plans[j.planId], t.plans[j.planId];
               && q.status == (if j.targetSetHash != p.targetSetHash then Planned
                               else if DryWentWell(o) then AwaitingConfirmation else DryFailed)
               && q.jobId == Some(s.settled) && q.dryRun.Some? && q.dryRun.value.jobId == Some(s.settled)
               && q == p.(status := q.status, jobId := q.jobId, dryRun := q.dryRun) && IsReport(t, q, q.dryRun.value)
  {
    assert JobOk(h, s, s.jobs[s.settled]);
    WentWellIsSucceeded(o, expected);
    hide LiveSucceeded, LiveWentWell, AllDryOk, DryWentWell;
  }

  /** A read job that reports: its plan has succeeded exactly when the job came to its end. */
  lemma ReadReportIsRecorded(h: Host, s: State, o: Outcome, expected: string)
    requires Inv(h, s) && s.settled < |s.jobs| && s.jobs[s.settled].stage == Read
    ensures var j, t := s.jobs[s.settled], Step(h, s, FinishJob(o, expected));
            && j.planId in s.plans && j.planId in t.plans
            && var p, q := s.plans[j.planId], t.plans[j.planId];
               && q.status == (if o.done then Succeeded else Failed) && q.jobId == Some(s.settled)
               && q.dryRun.Some? && q.dryRun.value.results == o.results
               && q.dryRun.value.status == (if o.done then ReadSucceeded else ReadFailed)
               && q == p.(status := q.status, jobId := q.jobId, dryRun := q.dryRun)
  {
    assert JobOk(h, s, s.jobs[s.settled]);
  }

  lemma FinishKeepsRecords(h: Host, s: State, o: Outcome, expected: string)
    requires Good(h, s) && s.settled < |s.jobs|
    ensures Recorded(Step(h, s, FinishJob(o, expected)))
  {
    var j, t := s.jobs[s.settled], Step(h, s, FinishJob(o, expected));
    assert JobOk(h, s, j) && s.plans[j.planId].id == j.planId;
    assert forall i :: 0 <= i < s.settled ==> t.jobs[i] == s.jobs[i];
    forall id | id in t.plans && !t.plans[id].readOnly ensures DryRecordOk(t, t.plans[id]) {
      if id != j.planId {
        RecordSurvives(s, t, s.plans[id], s.plans[id]);
      } else if j.stage == Dry {
        DryReportIsRecorded(h, s, o, expected);
      } else {
        CompletedKeepsReadOnly(s.plans[id], j, s.settled, o, expected);
        LiveReportIsRecorded(h, s, o, expected);
        RecordSurvives(s, t, s.plans[id], t.plans[id]);
      }
    }
  }

  lemma DropKeepsRecords(s: State)
    requires Recorded(s) && s.settled < |s.jobs|
    ensures Recorded(DropStep(s))
  {
    var t := DropStep(s);
    forall id | id in t.plans && !t.plans[id].readOnly ensures DryRecordOk(t, t.plans[id]) {
      RecordSurvives(s, t, s.plans[id], s.plans[id]);
    }
  }

  lemma NewPlanKeepsRecords(h: Host, s: State, id: string, system: string, action: string)
    requires Recorded(s) && s.settled <= |s.jobs|
    ensures Recorded(Put(s, NewPlan(h, s.world, id, system, action)))
  {
    var q := NewPlan(h, s.world, id, system, action);
    PutKeepsRecords(s, Put(s, q), q);
  }

  lemma StepKeepsRecords(h: Host, s: State, e: Event)
    requires Good(h, s)
    ensures Recorded(Step(h, s, e))
  {
    assert s.settled <= |s.jobs| && forall id :: id in s.plans ==> s.plans[id].id == id;
    match e
    case Sync(w) =>
      forall id | id in s.plans && !s.plans[id].readOnly ensures DryRecordOk(s.(world := w), s.plans[id]) {
        RecordSurvives(s, s.(world := w), s.plans[id], s.plans[id]);
      }
    case ReviewTargets(id, planHash, keys, now) =>
      if Step(h, s, e) != s {
        var q := SaveTargets(h, s.world, s.plans[id], keys, now).value;
        ReviewRecords(h, s.world, s.plans[id], keys, now);
        if !q.readOnly { ReviewKeepsRecord(h, s, s.plans[id], keys, now); }
        PutKeepsRecords(s, Put(s, q), q);
      }
    case StartDryRun(id, planHash, keys, now) =>
      if id in s.plans { StartDryRunKeepsRecords(h, s, s.plans[id], planHash, keys, now); }
    case Confirm(id, _, _, _, _, now) => if Step(h, s, e) != s { ConfirmKeepsRecords(s, s.plans[id], now); }
    case Create(id, system, action) => NewPlanKeepsRecords(h, s, id, system, action);
    case FinishJob(o, expected) => if s.settled < |s.jobs| { FinishKeepsRecords(h, s, o, expected); }
    case DropJob => if s.settled < |s.jobs| { DropKeepsRecords(s); }
  }

  lemma {:induction false} RunKeepsRecords(h: Host, w: World, events: seq<Event>)
    requires Collates(h)
    ensures Good(h, Run(h, Start(w), events))
  {
    ReachableIsSafe(h, w, events);
    RunKeepsReads(h, w, events);
    if events != [] {
      hide Inv, StagesFit, Recorded, Step;
      var front := events[..|events| - 1];
      RunKeepsRecords(h, w, front);
      StepKeepsRecords(h, Run(h, Start(w), front), events[|events| - 1]);
    }
  }

  // ----- what the records say in every reachable state -----

  /**
  Whatever happened: the dry run recorded for a plan that writes is what one of its own dry jobs reported, judged by
  that report and the targets now reviewed; and the plan awaits confirmation, or counts as failed, only by such a record.
  */
  lemma DryVerdictIsTheOutcome(h: Host, w: World, events: seq<Event>, id: string)
    requires Collates(h)
    requires var s := Run(h, Start(w), events); id in s.plans && !s.plans[id].readOnly
    ensures DryRecordOk(Run(h, Start(w), events), Run(h, Start(w), events).plans[id])
  {
    RunKeepsRecords(h, w, events);
  }

  /**
  The last word on a live run: what the plan row says in the end, about the run and about the dry run that vouched for
  it, is what the two jobs reported.
  */
  lemma FinalRowIsTrue(h: Host, w: World, before: seq<Event>, o: Outcome, expected: string, after: seq<Event>)
    requires Collates(h)
    requires var s := Run(h, Start(w), before); s.settled < |s.jobs| && s.jobs[s.settled].stage == Live
    ensures var s := Run(h, Start(w), before);
            var id, t := s.jobs[s.settled].planId, Run(h, Step(h, s, FinishJob(o, expected)), after);
            && id in t.plans && t.plans[id].status == (if LiveWentWell(o, expected) then Succeeded else Failed)
            && (t.plans[id].dryRun.Some? ==> IsReport(t, t.plans[id], t.plans[id].dryRun.value))
  {
    var s := Run(h, Start(w), before);
    LiveVerdictIsTheOutcome(h, w, before, o, expected, after);
    RunKeepsRecords(h, w, before);
    var id := s.jobs[s.settled].planId;
    RunOne(h, Start(w), before, FinishJob(o, expected));
    RunAppend(h, Start(w), before + [FinishJob(o, expected)], after);
    RunKeepsRecords(h, w, before + [FinishJob(o, expected)] + after);
    var t := Run(h, Step(h, s, FinishJob(o, expected)), after);
    hide Step, Run, LiveWentWell, IsReport, Inv;
    LiveJobStays(h, s, o, expected, after);
    assert t.jobs[s.settled].stage == Live && t.jobs[s.settled].planId == id;
  }

  lemma LiveJobStays(h: Host, s: State, o: Outcome, expected: string, after: seq<Event>)
    requires s.settled < |s.jobs|
    ensures var t := Run(h, Step(h, s, FinishJob(o, expected)), after);
            s.settled < |t.jobs| && t.jobs[s.settled].stage == s.jobs[s.settled].stage
            && t.jobs[s.settled].planId == s.jobs[s.settled].planId
  {
    var s1 := Step(h, s, FinishJob(o, expected));
    StepKeepsJobs(h, s, FinishJob(o, expected));
    QueuedJobsAreKept(h, s1, after);
    hide Step, Run;
  }

  /** The confirmation that brings a plan live names, by its hash, the very report of the dry run that vouches for it. */
  lemma ConfirmNamesTheReport(h: Host, w: World, events: seq<Event>, e: Event, id: string) returns (d: nat)
    requires Collates(h)
    requires GoesLive(Run(h, Start(w), events), Step(h, Run(h, Start(w), events), e), id)
    ensures var s := Run(h, Start(w), events);
            && e.Confirm? && d < |s.jobs| && s.jobs[d].planId == id && s.jobs[d].stage == Dry
            && s.jobs[d].ending.Finished? && DryWentWell(s.jobs[d].ending.outcome)
            && e.dryRunHash == Some(Sha256(CResults(s.jobs[d].ending.outcome.results.value)))
  {
    d := LiveRunIsVouchedFor(h, w, events, e, id);
    RunKeepsRecords(h, w, events);
    OnlyConfirmGoesLive(h, Run(h, Start(w), events), e, id);
    var s := Run(h, Start(w), events);
    hide Run, Step, GoesLive, Inv;
    assert !s.plans[id].readOnly;
    assert IsReport(s, s.plans[id], s.plans[id].dryRun.value);
    assert forall i :: 0 <= i < |s.jobs[d].ending.outcome.results.value| ==>
      s.jobs[d].ending.outcome.results.value[i] in s.jobs[d].ending.outcome.results.value;
  }

  /** A read plan: a query answers at once and without a job; another read becomes the next read job of its plan. */
  lemma ReadRequestRecords(h: Host, s: State, id: string, planHash: Option<Hash>, now: int)
    requires Inv(h, s) && id in s.plans && s.plans[id].readOnly
    ensures var p, t := s.plans[id], Step(h, s, StartDryRun(id, planHash, None, now));
            if planHash != Some(p.planHash) || p.confirmation.Some?
               || p.status !in {Planned, DryFailed, DryRunning, AwaitingConfirmation} then t == s
            else && t.plans.Keys == s.plans.Keys && (forall k :: k in s.plans && k != id ==> t.plans[k] == s.plans[k])
                 && (if p.action == "query" then t.jobs == s.jobs && t.plans[id].status == Succeeded && t.plans[id].jobId == p.jobId
                     else t.plans[id] == p.(status := Queued, jobId := Some(|s.jobs|)) && |t.jobs| == |s.jobs| + 1
                          && t.jobs[..|s.jobs|] == s.jobs && t.jobs[|s.jobs|].stage == Read && t.jobs[|s.jobs|].planId == id)
  {
    assert s.plans[id].id == id;
  }

  /** What an accepted confirm records: the live job's number, the time, and the dry run's hash. */
  lemma ConfirmRecords(h: Host, s: State, e: Event)
    requires Inv(h, s) && e.Confirm? && e.id in s.plans && Step(h, s, e) != s
    ensures var t, p := Step(h, s, e), s.plans[e.id];
            && e.id in t.plans && p.dryRun.Some? && p.targets.Some? && t.settled == s.settled && t.world == s.world
            && t.jobs == s.jobs + [Job(e.id, Live, p.planHash, p.targetSetHash, p.targets.value.targets, Waiting)]
            && t.plans == s.plans[e.id := p.(status := Queued, jobId := Some(|s.jobs|),
                                             confirmation := Some(Confirmation(e.now, |s.jobs|, p.dryRun.value.hash)))]
  {
    var p := s.plans[e.id];
    assert PlanOk(h, s, p);
  }
}
