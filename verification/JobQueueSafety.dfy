/** What every run of the durable queue guarantees, from rows that start out freshly queued. */
module JobQueueSafety {
  import opened Wrappers
  import opened JobQueue

  // ----- the row invariant -----

  predicate RowOk(r: Job) {
    && r.attempts <= r.maxAttempts && 0 < r.maxAttempts
    && (r.status == Queued ==>
          r.worker.None? && r.workerTenant.None? && !r.cancelled && r.attempts < r.maxAttempts)
    && (Active(r.status) ==> r.worker.Some? && 0 < r.attempts)
    && (r.cancelled ==> r.status == Canceling || Terminal(r.status))
    && (r.workerTenant.Some? ==> r.workerTenant.value == r.tenant)
  }

  ghost predicate Inv(rows: Rows) { forall id :: id in rows ==> RowOk(rows[id]) }

  /** One row of a table before and after a step, in the only ways a step can change it. */
  ghost predicate RowStep(r: Job, t: Job, e: Event) {
    || t == r
    || (!e.ReconcileJobs? && !e.HeartbeatJob? && !e.CompleteJob? && !e.CancelJob? && ClaimedFrom(r, t))
    || (e.HeartbeatJob? && HeartbeatFrom(r, t))
    || (e.CompleteJob? && CompletedFrom(r, t, e.layer, e.status))
    || (e.CancelJob? && !Terminal(r.status) && t == CanceledRow(r, e.now, e.reason))
    || (e.ReconcileJobs? && Selected(r, e.sweep) && t == SweptRow(r, e.sweep))
  }

  ghost predicate ClaimedFrom(r: Job, t: Job) {
    exists b: Binding, now: int, lease: int ::
      b.tenant == b.runnerTenant && Claimable(r, b.tenant, false) && t == ClaimedRow(r, b, now, lease)
  }

  ghost predicate HeartbeatFrom(r: Job, t: Job) {
    exists s: Status, now: int, lease: int, pid: Option<int>, runId: Option<string> ::
      Active(r.status) && Active(s) && t == HeartbeatRow(r, s, now, lease, pid, runId)
  }

  ghost predicate CompletedFrom(r: Job, t: Job, layer: Layer, asked: Status) {
    exists b: Binding, s: Status, now: int, rep: Report ::
      && Active(r.status) && Owns(b, r) && Terminal(s) && t == CompletedRow(r, s, now, rep)
      && s == if !layer.Direct? && CancelRequested(r) then Canceled else asked
  }

  lemma BindingTenants(c: Caller)
    requires BindingFrom(c).Some?
    ensures BindingFrom(c).value.tenant == BindingFrom(c).value.runnerTenant
    ensures c.tenantId.Some? ==> BindingFrom(c).value.runnerTenant == c.tenantId
  {}

  /** A row owned under a tenant binding is a row of that tenant, so the scoped read of the layers finds it. */
  lemma OwnedIsInTenant(b: Binding, r: Job)
    requires RowOk(r) && Owns(b, r)
    ensures InTenant(b.runnerTenant, r)
  {}

  lemma CompleteStepsRow(rows: Rows, id: string, layer: Layer, status: Status, now: int, rep: Report, k: string)
    requires Inv(rows) && k in rows
    ensures var t := Step(rows, CompleteJob(id, layer, status, now, rep));
            k in t && (t[k] == rows[k] || (k == id && CompletedFrom(rows[k], t[k], layer, status)))
  {
    var t := Step(rows, CompleteJob(id, layer, status, now, rep));
    if t[k] != rows[k] {
      var c := match layer case Direct(c) => c case Contract(i, rt) => ContractCaller(i, rt) case Store(c) => StoreCaller(c);
      var b := BindingFrom(c).value;
      BindingTenants(c);
      OwnedIsInTenant(b, rows[id]);
      var stop := !layer.Direct? && CancelRequested(rows[id]);
      assert t[id] == CompletedRow(rows[id], if stop then Canceled else status, now, WithCancelReason(stop, rep));
    }
  }

  lemma ClaimStepsRow(rows: Rows, id: string, c: Caller, now: int, lease: int, rr: bool, k: string)
    requires k in rows
    ensures var t := Claim(rows, id, c, now, lease, rr).0;
            k in t && (t[k] == rows[k] || (k == id && ClaimedFrom(rows[k], t[k])))
  {
    if Claim(rows, id, c, now, lease, rr).0 != rows {
      var b := BindingFrom(c).value;
      BindingTenants(c);
      assert Claimable(rows[id], b.tenant, false);
    }
  }

  lemma HeartbeatStepsRow(rows: Rows, id: string, c: Caller, now: int, lease: int, s: Status, pid: Option<int>, runId: Option<string>, k: string)
    requires k in rows
    ensures var t := Heartbeat(rows, id, c, now, lease, s, pid, runId).0;
            k in t && (t[k] == rows[k] || (k == id && HeartbeatFrom(rows[k], t[k])))
  {}

  lemma StepIsRowStep(rows: Rows, e: Event, k: string)
    requires Inv(rows) && k in rows
    ensures k in Step(rows, e) && RowStep(rows[k], Step(rows, e)[k], e)
  {
    match e
    case Enqueue(_, _) =>
    case ClaimJob(id, c, now, lease, rr) => ClaimStepsRow(rows, id, c, now, lease, rr, k);
    case ClaimNextJob(c, now, lease, rr, kinds) =>
      if Step(rows, e) != rows {
        var b := BindingFrom(c).value;
        var id :| IsNext(rows, b.tenant, rr, kinds, id)
          && Step(rows, e) == Claim(rows, id, Caller(b.runnerId, b.tenant, b.runnerTenant, b.deployment), now, lease, rr).0;
        ClaimStepsRow(rows, id, Caller(b.runnerId, b.tenant, b.runnerTenant, b.deployment), now, lease, rr, k);
      }
    case HeartbeatJob(id, layer, now, lease, s, pid, runId) =>
      var c := match layer case Direct(c) => c case Contract(i, rt) => ContractCaller(i, rt) case Store(c) => StoreCaller(c);
      HeartbeatStepsRow(rows, id, c, now, lease, s, pid, runId, k);
    case CompleteJob(id, layer, status, now, rep) => CompleteStepsRow(rows, id, layer, status, now, rep, k);
    case CancelJob(_, _, _, _) =>
    case ReconcileJobs(_) =>
  }

  lemma RowStepKeepsOk(r: Job, t: Job, e: Event)
    requires RowOk(r) && RowStep(r, t, e)
    ensures RowOk(t)
  {}

  lemma StepKeeps(rows: Rows, e: Event)
    requires Inv(rows)
    ensures Inv(Step(rows, e)) && rows.Keys <= Step(rows, e).Keys
    ensures forall id :: id in Step(rows, e) && id !in rows ==> e.Enqueue? && e.id == id && Step(rows, e)[id] == e.job && Fresh(e.job)
  {
    forall id | id in rows ensures id in Step(rows, e) && RowOk(Step(rows, e)[id]) {
      StepIsRowStep(rows, e, id);
      RowStepKeepsOk(rows[id], Step(rows, e)[id], e);
    }
  }

  lemma {:induction false} RunKeeps(rows: Rows, events: seq<Event>)
    requires Inv(rows)
    ensures Inv(Run(rows, events)) && rows.Keys <= Run(rows, events).Keys
  {
    if events != [] {
      RunKeeps(rows, events[..|events| - 1]);
      StepKeeps(Run(rows, events[..|events| - 1]), events[|events| - 1]);
    }
  }

  // ----- terminal rows -----

  lemma {:induction false} TerminalForever(rows: Rows, events: seq<Event>, id: string)
    requires Inv(rows) && id in rows && Terminal(rows[id].status)
    ensures id in Run(rows, events) && Run(rows, events)[id] == rows[id]
  {
    if events != [] {
      var front := events[..|events| - 1];
      TerminalForever(rows, front, id);
      RunKeeps(rows, front);
      StepIsRowStep(Run(rows, front), events[|events| - 1], id);
    }
  }

  // ----- claims and requeues -----

  ghost predicate ClaimHappened(rows: Rows, e: Event, id: string) {
    id in rows && rows[id].status == Queued && id in Step(rows, e) && Active(Step(rows, e)[id].status)
  }

  ghost predicate RequeueHappened(rows: Rows, e: Event, id: string) {
    id in rows && Active(rows[id].status) && id in Step(rows, e) && Step(rows, e)[id].status == Queued
  }

  ghost function Claims(events: seq<Event>, id: string): nat {
    if events == [] then 0
    else
      var front := events[..|events| - 1];
      Claims(front, id) + if ClaimHappened(Run(map[], front), events[|events| - 1], id) then 1 else 0
  }

  ghost function Requeues(events: seq<Event>, id: string): nat {
    if events == [] then 0
    else
      var front := events[..|events| - 1];
      Requeues(front, id) + if RequeueHappened(Run(map[], front), events[|events| - 1], id) then 1 else 0
  }

  lemma RowStepCounts(r: Job, t: Job, e: Event)
    requires RowOk(r) && RowStep(r, t, e)
    ensures t.maxAttempts == r.maxAttempts && RowOk(t) && t.attempts <= t.maxAttempts
    ensures t.attempts == r.attempts + if r.status == Queued && Active(t.status) then 1 else 0
    ensures t.status == Queued ==> r.status == Queued || Active(r.status)
    ensures Active(t.status) ==> r.status == Queued || Active(r.status)
    ensures Active(t.status) ==> t.status != Queued
    ensures Active(r.status) ==> r.status != Queued
  {}

  lemma FreshRowIsQueued(r: Job)
    requires Fresh(r)
    ensures r.status == Queued && r.attempts == 0 && 0 < r.maxAttempts && !Active(r.status)
  {}

  /**
  The attempt ledger. Attempts count exactly the successful claims and stay within the limit; a queued row has
  been requeued as often as claimed, an active one once less, and a row ends in one of these two ways.
  */
  lemma {:induction false} AttemptsAreClaims(events: seq<Event>, id: string)
    ensures Inv(Run(map[], events))
    ensures var rows := Run(map[], events);
            if id in rows then
              && rows[id].attempts == Claims(events, id) <= rows[id].maxAttempts
              && Requeues(events, id) <= Claims(events, id) <= Requeues(events, id) + 1
              && (rows[id].status == Queued ==> Claims(events, id) == Requeues(events, id))
              && (Active(rows[id].status) ==> Claims(events, id) == Requeues(events, id) + 1)
            else Claims(events, id) == 0 == Requeues(events, id)
  {
    RunKeeps(map[], events);
    if events != [] {
      hide Step, RowStep, RowOk;
      var front := events[..|events| - 1];
      AttemptsAreClaims(front, id);
      var rows, e := Run(map[], front), events[|events| - 1];
      StepKeeps(rows, e);
      if id in rows {
        StepIsRowStep(rows, e, id);
        RowStepCounts(rows[id], Step(rows, e)[id], e);
      } else if id in Step(rows, e) {
        FreshRowIsQueued(Step(rows, e)[id]);
      }
    }
  }

  /** In every run a queued row has no worker and is claimable again, and an active row has a worker. */
  lemma ReachableRowsOk(events: seq<Event>, id: string)
    requires id in Run(map[], events)
    ensures RowOk(Run(map[], events)[id])
  {
    RunKeeps(map[], events);
  }

  // ----- a requeued job is lost to its runner -----

  /** The runner that an identity option set names. */
  function RunnerOf(layer: Layer): string {
    match layer case Direct(c) => c.runnerId case Contract(i, _) => i.runnerId case Store(c) => c.runnerId
  }

  ghost predicate ClaimedBy(rows: Rows, e: Event, id: string, runner: string) {
    ClaimHappened(rows, e, id) && Step(rows, e)[id].worker == Some(runner)
  }

  /** No claim of job `id` by `runner` succeeds anywhere in the run. */
  ghost predicate NeverClaimedBy(rows: Rows, events: seq<Event>, id: string, runner: string) {
    forall i :: 0 <= i < |events| ==> !ClaimedBy(Run(rows, events[..i]), events[i], id, runner)
  }

  lemma StepKeepsOut(rows: Rows, e: Event, id: string, runner: string)
    requires Inv(rows) && id in rows && rows[id].worker != Some(runner) && !ClaimedBy(rows, e, id, runner)
    ensures id in Step(rows, e) && Step(rows, e)[id].worker != Some(runner)
  {
    StepIsRowStep(rows, e, id);
  }

  /** A heartbeat or completion by anyone but the row's worker leaves the table as it was. */
  lemma OutsiderChangesNothing(rows: Rows, e: Event)
    requires e.HeartbeatJob? || e.CompleteJob?
    requires e.id in rows ==> rows[e.id].worker != Some(RunnerOf(e.layer))
    ensures Step(rows, e) == rows
  {}

  lemma {:induction false} StaysOut(rows: Rows, after: seq<Event>, id: string, runner: string)
    requires Inv(rows) && id in rows && rows[id].worker != Some(runner) && NeverClaimedBy(rows, after, id, runner)
    ensures id in Run(rows, after) && Run(rows, after)[id].worker != Some(runner)
  {
    if after != [] {
      var front := after[..|after| - 1];
      forall i | 0 <= i < |front| ensures !ClaimedBy(Run(rows, front[..i]), front[i], id, runner) {
        assert front[..i] == after[..i];
      }
      StaysOut(rows, front, id, runner);
      RunKeeps(rows, front);
      assert after[..|after| - 1] == front;
      StepKeepsOut(Run(rows, front), after[|after| - 1], id, runner);
    }
  }

  /**
  After a requeue, and until it wins the job again by a claim, the old runner's heartbeats and completions
  change nothing, through any layer.
  */
  lemma RequeuedRunnerIsOut(rows: Rows, w: Sweep, after: seq<Event>, e: Event)
    requires (e.HeartbeatJob? || e.CompleteJob?) && Inv(rows) && RequeueHappened(rows, ReconcileJobs(w), e.id)
    requires rows[e.id].worker == Some(RunnerOf(e.layer))
    requires NeverClaimedBy(Reconcile(rows, w), after, e.id, RunnerOf(e.layer))
    ensures Step(Run(Reconcile(rows, w), after), e) == Run(Reconcile(rows, w), after)
  {
    assert Reconcile(rows, w) == Step(rows, ReconcileJobs(w));
    StepKeeps(rows, ReconcileJobs(w));
    StaysOut(Reconcile(rows, w), after, e.id, RunnerOf(e.layer));
    OutsiderChangesNothing(Run(Reconcile(rows, w), after), e);
  }

  // ----- cancellation -----

  /** A recorded cancel, and where it can still lead through the runner layers. */
  predicate StopRecorded(r: Job) { r.cancelled && r.status in {Canceling, Canceled, Interrupted} }

  predicate ThroughLayers(e: Event) { e.CompleteJob? ==> !e.layer.Direct? }

  lemma CancelRecords(rows: Rows, id: string, tenant: Option<string>, now: int, reason: string)
    requires Inv(rows) && Lookup(rows, id, tenant).Some? && !Terminal(rows[id].status)
    ensures StopRecorded(RequestCancel(rows, id, tenant, now, reason).0[id])
  {}

  lemma StopStays(r: Job, t: Job, e: Event)
    requires RowOk(r) && StopRecorded(r) && RowStep(r, t, e) && ThroughLayers(e)
    ensures StopRecorded(t)
  {}

  /** Never undone, never requeued, and through the store or contract layer it ends canceled or interrupted. */
  lemma {:induction false} CancelIsNeverUndone(rows: Rows, events: seq<Event>, id: string)
    requires Inv(rows) && id in rows && StopRecorded(rows[id])
    requires forall e <- events :: ThroughLayers(e)
    ensures id in Run(rows, events) && StopRecorded(Run(rows, events)[id])
  {
    if events != [] {
      var front := events[..|events| - 1];
      var last := events[|events| - 1];
      assert last in events && forall e <- front :: e in events;
      CancelIsNeverUndone(rows, front, id);
      RunKeeps(rows, front);
      StepIsRowStep(Run(rows, front), last, id);
      StopStays(Run(rows, front)[id], Step(Run(rows, front), last)[id], last);
    }
  }

  /** Even with direct completions the flag stays and the job is never queued again. */
  lemma {:induction false} CancelFlagStays(rows: Rows, events: seq<Event>, id: string)
    requires Inv(rows) && id in rows && rows[id].cancelled
    ensures id in Run(rows, events) && Run(rows, events)[id].cancelled && Run(rows, events)[id].status != Queued
  {
    if events != [] {
      var front := events[..|events| - 1];
      CancelFlagStays(rows, front, id);
      RunKeeps(rows, front);
      StepIsRowStep(Run(rows, front), events[|events| - 1], id);
    } else {
      assert RowOk(rows[id]);
    }
  }

  /** The table-level completion does not look at the flag: it keeps a recorded stop exactly when asked to. */
  lemma DirectCompletionObeysTheRunner(rows: Rows, id: string, c: Caller, status: Status, now: int, rep: Report)
    requires Inv(rows) && id in rows && rows[id].status == Canceling && rows[id].cancelled
    requires Complete(rows, id, c, status, now, rep).1.Row?
    ensures StopRecorded(Complete(rows, id, c, status, now, rep).0[id]) <==> status in {Canceled, Interrupted}
  {}

  /** Such a completion exists: a cancelled job can be recorded as succeeded by the table-level call. */
  lemma DirectCompletionCanOverrule() returns (rows: Rows, c: Caller, rep: Report)
    ensures Inv(rows) && "j1" in rows && StopRecorded(rows["j1"])
    ensures Complete(rows, "j1", c, Succeeded, 5, rep).0["j1"].status == Succeeded
  {
    c := Caller("w", None, None, None);
    rep := Report(Some(0), None, None, None, None, None, None, false);
    rows := map["j1" := Job("t", "run", Canceling, None, true, Some(3), false, 1, Some(2), None, None, None, Some("w"),
      None, None, Some(2), Some(9), 1, 1, None, None, None, None, None, None, NoCommand, false, 3)];
  }

  // ----- reconcile -----

  lemma SweptRowChanges(r: Job, w: Sweep)
    requires RowOk(r)
    ensures !Selected(SweptRow(r, w), w)
    ensures SweptRow(r, w) != r <==> Selected(r, w)
    ensures SweptRow(r, w).status == Queued && r.status != Queued ==> w.retryStale && Claimable(SweptRow(r, w), None, true)
    ensures Selected(r, w) && SweptRow(r, w).status != Queued ==> SweptRow(r, w).status == Interrupted
  {
    assert Selected(r, w) ==> SweptRow(r, w).status != r.status;
  }

  /** No active row in scope is left stale, no other row changes, and only claimable rows are requeued. */
  lemma ReconcileSweepsExactlyStale(rows: Rows, w: Sweep)
    requires Inv(rows) && !BadSweep(w)
    ensures var t := Reconcile(rows, w);
            && t.Keys == rows.Keys
            && (forall id :: id in rows ==> !Selected(t[id], w))
            && (forall id :: id in rows ==> (t[id] != rows[id] <==> Selected(rows[id], w)))
            && (forall id :: id in rows && t[id].status == Queued && rows[id].status != Queued ==>
                  w.retryStale && Claimable(t[id], None, true))
            && (forall id :: id in rows && Selected(rows[id], w) && t[id].status != Queued ==> t[id].status == Interrupted)
  {
    hide Selected, SweptRow, Claimable, RowOk;
    forall id | id in rows
      ensures var r, t := rows[id], SweptRow(rows[id], w);
              && !Selected(t, w) && (t != r <==> Selected(r, w))
              && (t.status == Queued && r.status != Queued ==> w.retryStale && Claimable(t, None, true))
              && (Selected(r, w) && t.status != Queued ==> t.status == Interrupted)
    {
      SweptRowChanges(rows[id], w);
    }
  }

  /** Where the reported row may differ from the stored one: empty texts and a zero end time. */
  predicate ReportsExactly(r: Job, w: Sweep) {
    && (r.failureReason == Some("") ==> w.reason == "")
    && (!CanRetry(r, w) ==> (r.error == Some("") ==> w.reason == "") && (r.endedAt == Some(0) ==> w.now == 0))
  }

  /** The row reported for a swept job is the stored post-state exactly under that condition. */
  lemma ReportIsPostState(r: Job, w: Sweep)
    requires Selected(r, w)
    ensures ReportedRow(r, w) == SweptRow(r, w) <==> ReportsExactly(r, w)
  {}

  /** One step of a run. */
  lemma RunStep(events: seq<Event>, e: Event)
    ensures Run(map[], events + [e]) == Step(Run(map[], events), e)
  {
    assert (events + [e])[..|events|] == events;
    hide Step;
  }

  function RetrySweep(reason: string): Sweep { Sweep(5, reason, None, true, None) }

  const ANY_RUNNER := Caller("w", None, None, None)

  const FRESH_JOB := Job("t", "run", Queued, None, false, None, false, 1, None, None, None, None, None,
    None, None, None, None, 0, 3, None, None, None, None, None, None, UsableCommand("c"), true, 1)

  function ClaimIt(): Event { ClaimJob("j1", ANY_RUNNER, 2, 9, false) }

  lemma ClaimOne(r: Job)
    requires r.status == Queued && r.attempts < r.maxAttempts
    ensures Step(map["j1" := r], ClaimIt()) == map["j1" := ClaimedRow(r, Binding("w", None, None, None), 2, 9)]
  {
    assert BindingFrom(ANY_RUNNER) == Some(Binding("w", None, None, None));
    assert map["j1" := r]["j1" := ClaimedRow(r, Binding("w", None, None, None), 2, 9)]
        == map["j1" := ClaimedRow(r, Binding("w", None, None, None), 2, 9)];
  }

  lemma SweepOne(r: Job, reason: string)
    ensures Step(map["j1" := r], ReconcileJobs(RetrySweep(reason))) == map["j1" := SweptRow(r, RetrySweep(reason))]
  {
    hide SweptRow;
  }

  /**
  Such a row is reachable: a job retried by a sweep without a reason keeps the empty reason, and when a later sweep
  with a real one retries it again, that one is reported but not stored.
  */
  lemma ReportCanDiffer() returns (events: seq<Event>, w: Sweep)
    ensures var rows := Run(map[], events);
            && "j1" in rows && Selected(rows["j1"], w) && rows["j1"].failureReason == Some("")
            && ReportedRow(rows["j1"], w).failureReason == Some("restart") != SweptRow(rows["j1"], w).failureReason
  {
    w := RetrySweep("restart");
    var claimed := ClaimedRow(FRESH_JOB, Binding("w", None, None, None), 2, 9);
    var retried := RetriedRow(claimed, RetrySweep(""));
    var again := ClaimedRow(retried, Binding("w", None, None, None), 2, 9);
    var add, sweep := Enqueue("j1", FRESH_JOB), ReconcileJobs(RetrySweep(""));
    assert Step(map[], add) == map["j1" := FRESH_JOB];
    ClaimOne(FRESH_JOB);
    SweepOne(claimed, "");
    assert SweptRow(claimed, RetrySweep("")) == retried;
    ClaimOne(retried);
    hide Step;
    RunStep([], add);
    RunStep([add], ClaimIt());
    RunStep([add, ClaimIt()], sweep);
    RunStep([add, ClaimIt(), sweep], ClaimIt());
    assert [] + [add] == [add] && [add] + [ClaimIt()] == [add, ClaimIt()];
    assert [add, ClaimIt()] + [sweep] == [add, ClaimIt(), sweep];
    events := [add, ClaimIt(), sweep] + [ClaimIt()];
    assert Run(map[], events) == map["j1" := again];
  }

  // ----- every run is bounded -----

  function Rank(s: Status): nat {
    match s case Claimed => 3 case Running => 3 case Canceling => 2 case Queued => 1 case _ => 0
  }

  /** (attempts left, status rank, not yet cancelled), as one number: a claim uses up an attempt worth eight. */
  function Fuel(r: Job): nat
    requires RowOk(r)
  {
    8 * (r.maxAttempts - r.attempts) + 2 * Rank(r.status) + if r.cancelled then 0 else 1
  }

  /** A step that moves the life of row `id` and is not a heartbeat. */
  ghost predicate Effective(rows: Rows, e: Event, id: string) {
    && id in rows && id in Step(rows, e) && !e.HeartbeatJob?
    && var r, t := rows[id], Step(rows, e)[id];
       r.status != t.status || r.attempts != t.attempts || r.cancelled != t.cancelled
  }

  lemma RowStepBurnsFuel(r: Job, t: Job, e: Event)
    requires RowOk(r) && RowOk(t) && RowStep(r, t, e)
    ensures Fuel(t) <= Fuel(r)
    ensures !e.HeartbeatJob? && (r.status != t.status || r.attempts != t.attempts || r.cancelled != t.cancelled)
            ==> Fuel(t) < Fuel(r)
  {}

  lemma StepBurnsFuel(rows: Rows, e: Event, id: string)
    requires Inv(rows) && id in rows
    ensures id in Step(rows, e) && RowOk(Step(rows, e)[id])
    ensures Fuel(Step(rows, e)[id]) <= Fuel(rows[id])
    ensures Effective(rows, e, id) ==> Fuel(Step(rows, e)[id]) < Fuel(rows[id])
  {
    hide Step, RowStep, Fuel, RowOk;
    StepKeeps(rows, e);
    StepIsRowStep(rows, e, id);
    RowStepBurnsFuel(rows[id], Step(rows, e)[id], e);
  }

  ghost function EffectiveSteps(rows: Rows, events: seq<Event>, id: string): nat {
    if events == [] then 0
    else
      var front := events[..|events| - 1];
      EffectiveSteps(rows, front, id) + if Effective(Run(rows, front), events[|events| - 1], id) then 1 else 0
  }

  /** However long a run is, a job's life moves at most `Fuel` times outside heartbeats. */
  lemma {:induction false} RunsAreBounded(rows: Rows, events: seq<Event>, id: string)
    requires Inv(rows) && id in rows
    ensures id in Run(rows, events) && RowOk(Run(rows, events)[id])
    ensures EffectiveSteps(rows, events, id) + Fuel(Run(rows, events)[id]) <= Fuel(rows[id])
  {
    if events != [] {
      var front := events[..|events| - 1];
      RunsAreBounded(rows, front, id);
      RunKeeps(rows, front);
      StepBurnsFuel(Run(rows, front), events[|events| - 1], id);
    }
  }
}
