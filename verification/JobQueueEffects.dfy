/** What each answered operation leaves in the row, column by column, and for how long. */
module JobQueueEffects {
  import opened Wrappers
  import opened JobQueue
  import opened JobQueueSafety

  /** Row `id` may differ; all other rows are as they were. */
  predicate OnlyRow(rows: Rows, after: Rows, id: string) {
    id in rows && after.Keys == rows.Keys && forall k :: k in rows && k != id ==> after[k] == rows[k]
  }

  predicate Given(a: Option<string>, b: Option<string>) { a.Some? ==> a == b }

  /** Every identity option of the call agrees with the row, and with one another. */
  predicate MayAct(c: Caller, r: Job) {
    && r.worker == Some(c.runnerId)
    && Given(c.tenantId, r.workerTenant) && Given(c.runnerTenantId, r.workerTenant)
    && Given(c.deploymentId, r.workerDeployment)
  }

  predicate Consistent(c: Caller) { c.tenantId.Some? && c.runnerTenantId.Some? ==> c.tenantId == c.runnerTenantId }

  /** The first of two values that is there. */
  predicate FirstOf<T(==)>(value: Option<T>, given: Option<T>, stored: Option<T>) {
    (given.Some? ==> value == given) && (given.None? ==> value == stored)
  }

  // ----- completions -----

  /** `t` is `r` with the outcome a runner reported, and nothing else changed. */
  predicate HoldsReport(r: Job, t: Job, status: Status, now: int, rep: Report) {
    && t.status == status && t.exitCode == rep.exitCode && t.exitSignal == rep.exitSignal
    && t.error == rep.error && t.failureReason == rep.failureReason
    && FirstOf(t.result, rep.result, r.result) && FirstOf(t.log, rep.log, r.log) && FirstOf(t.runId, rep.runId, r.runId)
    && (t.cancelled <==> r.cancelled || status == Canceled) && (t.timedOut <==> rep.timedOut || status == Expired)
    && FirstOf(t.endedAt, r.endedAt, Some(now))
    && t.pid.None? && t.claimExpiresAt.None? && t.lastHeartbeatAt == Some(now) && t.updatedAt == now
    && r == t.(status := r.status, exitCode := r.exitCode, exitSignal := r.exitSignal, error := r.error,
               failureReason := r.failureReason, result := r.result, log := r.log, runId := r.runId,
               cancelled := r.cancelled, timedOut := r.timedOut, endedAt := r.endedAt, pid := r.pid,
               claimExpiresAt := r.claimExpiresAt, lastHeartbeatAt := r.lastHeartbeatAt, updatedAt := r.updatedAt)
  }

  /** Which completions are answered with a row: those of the row's own runner, while it is active. */
  lemma CompleteAnswersIff(rows: Rows, id: string, c: Caller, status: Status, now: int, rep: Report)
    ensures Complete(rows, id, c, status, now, rep).1.Row?
            <==> (Consistent(c) && Terminal(status) && id in rows && Active(rows[id].status) && MayAct(c, rows[id]))
    ensures !Complete(rows, id, c, status, now, rep).1.Row? ==> Complete(rows, id, c, status, now, rep).0 == rows
  {}

  /** A completion that is answered records exactly what was reported, in that row only. */
  lemma CompletionIsRecorded(rows: Rows, id: string, c: Caller, status: Status, now: int, rep: Report)
    requires Complete(rows, id, c, status, now, rep).1.Row?
    ensures var (after, r) := Complete(rows, id, c, status, now, rep);
            OnlyRow(rows, after, id) && r.job == after[id] && HoldsReport(rows[id], after[id], status, now, rep)
  {}

  /** What a layer above the table makes of a report for a job whose cancellation it sees. */
  predicate WithStop(stop: bool, rep: Report, seen: Report) {
    && seen == rep.(failureReason := seen.failureReason)
    && (if stop && rep.failureReason in {None, Some("")} then seen.failureReason == Some("runner cancel requested")
        else seen.failureReason == rep.failureReason)
  }

  /** The row of a completion that a runner layer accepted. */
  ghost predicate LayerReported(rows: Rows, after: Rows, id: string, status: Status, now: int, rep: Report) {
    && OnlyRow(rows, after, id)
    && var stop := rows[id].status == Canceling || rows[id].cancelled;
       exists seen: Report ::
         WithStop(stop, rep, seen) && HoldsReport(rows[id], after[id], if stop then Canceled else status, now, seen)
  }

  lemma ContractCompletionIsRecorded(rows: Rows, id: string, i: Identity, rt: Option<string>, status: Status, now: int, rep: Report)
    requires Inv(rows) && ContractComplete(rows, id, i, rt, status, now, rep).1.Row?
    ensures var (after, r) := ContractComplete(rows, id, i, rt, status, now, rep);
            LayerReported(rows, after, id, status, now, rep) && r.job == after[id]
  {
    var c := ContractCaller(i, rt);
    OwnedIsInTenant(BindingFrom(c).value, rows[id]);
    var stop := rows[id].status == Canceling || rows[id].cancelled;
    var seen := WithCancelReason(stop, rep);
    assert WithStop(stop, rep, seen);
    CompletionIsRecorded(rows, id, c, if stop then Canceled else status, now, seen);
    hide HoldsReport, Complete;
  }

  lemma StoreCompletionIsRecorded(rows: Rows, id: string, c: Caller, status: Status, now: int, rep: Report)
    requires StoreComplete(rows, id, c, status, now, rep).1.Did? && StoreComplete(rows, id, c, status, now, rep).1.reply.Row?
    ensures var (after, r) := StoreComplete(rows, id, c, status, now, rep);
            LayerReported(rows, after, id, status, now, rep) && r.reply.job == after[id]
  {
    var stop := rows[id].status == Canceling || rows[id].cancelled;
    var seen := WithCancelReason(stop, rep);
    assert WithStop(stop, rep, seen);
    CompletionIsRecorded(rows, id, StoreCaller(c), if stop then Canceled else status, now, seen);
    hide HoldsReport, Complete;
  }

  /** Why the runner store refuses a completion, told apart. */
  lemma StoreRefusalIff(rows: Rows, id: string, c: Caller, status: Status, now: int, rep: Report)
    ensures var r := StoreComplete(rows, id, c, status, now, rep).1;
            var found := id in rows && (c.tenantId.Some? ==> rows[id].tenant == c.tenantId.value);
            var asked := if c.runnerTenantId.Some? then c.runnerTenantId else c.tenantId;
            && (r == Refused("not-found") <==> !found)
            && (found ==>
                  var row := rows[id];
                  var otherWorker := row.worker.Some? && row.worker != Some(c.runnerId);
                  var otherTenant := row.workerTenant.Some? && row.workerTenant != asked;
                  && (r == Refused("already-terminal") <==> Terminal(row.status))
                  && (row.status == Queued ==> r == Refused("not-active"))
                  && (r == Refused("tenant-scope-refused") <==> Active(row.status) && !otherWorker && otherTenant)
                  && (r == Refused("foreign-runner") <==>
                        Active(row.status)
                        && (otherWorker || (!otherTenant && row.workerDeployment.Some?
                                            && row.workerDeployment.value != (if c.deploymentId.Some? then c.deploymentId.value else "")))))
  {
    hide Complete;
  }

  /** The first answered completion is the last word: after it no run of operations changes the row. */
  lemma ReportIsFinal(rows: Rows, id: string, c: Caller, status: Status, now: int, rep: Report, events: seq<Event>)
    requires Inv(rows) && Complete(rows, id, c, status, now, rep).1.Row?
    ensures var after := Run(Complete(rows, id, c, status, now, rep).0, events);
            id in after && HoldsReport(rows[id], after[id], status, now, rep)
  {
    CompletionIsRecorded(rows, id, c, status, now, rep);
    CompleteAnswersIff(rows, id, c, status, now, rep);
    var e := CompleteJob(id, Direct(c), status, now, rep);
    StepKeeps(rows, e);
    assert Step(rows, e) == Complete(rows, id, c, status, now, rep).0;
    hide Step, Run, Complete;
    TerminalForever(Step(rows, e), events, id);
  }

  /** Event `k` is the accepted report, by the row's own runner, that made `t` what it is. */
  ghost predicate ReportedAt(events: seq<Event>, k: nat, id: string, t: Job) {
    && k < |events| && events[k].CompleteJob? && events[k].id == id
    && var before := Run(map[], events[..k]);
       && id in before && Active(before[id].status) && before[id].worker == Some(RunnerOf(events[k].layer))
       && HoldsReport(before[id], t, events[k].status, events[k].now, events[k].report)
  }

  predicate IsVerdict(s: Status) { s in {Succeeded, Failed, Expired} }

  lemma VerdictRow(r: Job, t: Job, e: Event)
    requires RowOk(r) && RowStep(r, t, e) && IsVerdict(t.status) && !IsVerdict(r.status)
    ensures e.CompleteJob? && Active(r.status)
  {}

  /** A layer that does not report a stop has passed the report on as it is. */
  lemma LayerVerdict(rows: Rows, after: Rows, id: string, status: Status, now: int, rep: Report)
    requires LayerReported(rows, after, id, status, now, rep) && IsVerdict(after[id].status)
    ensures HoldsReport(rows[id], after[id], status, now, rep)
  {
    var stop := rows[id].status == Canceling || rows[id].cancelled;
    var seen :| WithStop(stop, rep, seen) && HoldsReport(rows[id], after[id], if stop then Canceled else status, now, seen);
    assert !stop && seen == rep;
  }

  /** A completion that changes its row into a verdict holds the report. */
  lemma VerdictReport(rows: Rows, e: Event)
    requires Inv(rows) && e.CompleteJob? && e.id in rows && Step(rows, e) != rows
    requires e.id in Step(rows, e) && IsVerdict(Step(rows, e)[e.id].status)
    ensures HoldsReport(rows[e.id], Step(rows, e)[e.id], e.status, e.now, e.report)
  {
    var after := Step(rows, e);
    hide HoldsReport, LayerReported, Inv;
    match e.layer
    case Direct(c) => CompletionIsRecorded(rows, e.id, c, e.status, e.now, e.report);
    case Contract(i, t) =>
      ContractCompletionIsRecorded(rows, e.id, i, t, e.status, e.now, e.report);
      LayerVerdict(rows, after, e.id, e.status, e.now, e.report);
    case Store(c) =>
      StoreCompletionIsRecorded(rows, e.id, c, e.status, e.now, e.report);
      LayerVerdict(rows, after, e.id, e.status, e.now, e.report);
  }

  lemma VerdictStep(rows: Rows, e: Event, id: string)
    requires Inv(rows) && id in Step(rows, e) && IsVerdict(Step(rows, e)[id].status)
    requires id in rows ==> !IsVerdict(rows[id].status)
    ensures e.CompleteJob? && e.id == id && id in rows && Active(rows[id].status)
    ensures rows[id].worker == Some(RunnerOf(e.layer)) && HoldsReport(rows[id], Step(rows, e)[id], e.status, e.now, e.report)
  {
    StepKeeps(rows, e);
    assert id in rows ==> RowOk(rows[id]);
    hide Inv, RowOk, RowStep, Step, HoldsReport;
    assert id in rows;
    StepIsRowStep(rows, e, id);
    VerdictRow(rows[id], Step(rows, e)[id], e);
    if e.id != id { CompletionIsAboutOneRow(rows, e, id); }
    if rows[id].worker != Some(RunnerOf(e.layer)) { OutsiderChangesNothing(rows, e); }
    VerdictReport(rows, e);
  }

  lemma CompletionIsAboutOneRow(rows: Rows, e: Event, id: string)
    requires Inv(rows) && e.CompleteJob? && id in rows && id != e.id
    ensures id in Step(rows, e) && Step(rows, e)[id] == rows[id]
  {
    CompleteStepsRow(rows, e.id, e.layer, e.status, e.now, e.report, id);
  }

  /**
  Where verdicts come from. In every run a row that counts as succeeded, failed or expired was reported so, with every
  other column of its outcome, by the runner that held it; nothing else in the system makes such a row.
  */
  lemma {:induction false} EveryVerdictWasReported(events: seq<Event>, id: string) returns (k: nat)
    requires id in Run(map[], events) && IsVerdict(Run(map[], events)[id].status)
    ensures ReportedAt(events, k, id, Run(map[], events)[id])
  {
    var last := |events| - 1;
    var front := events[..last];
    RunKeeps(map[], front);
    var rows := Run(map[], front);
    hide Step, HoldsReport;
    if id in rows && IsVerdict(rows[id].status) {
      k := EveryVerdictWasReported(front, id);
      assert front[..k] == events[..k];
      TerminalForever(rows, [events[last]], id);
      assert [events[last]][..0] == [] && Run(rows, []) == rows;
    } else {
      k := last;
      VerdictStep(rows, events[last], id);
    }
  }

  // ----- claims, leases and heartbeats -----

  /** `t` is `r` in the hands of the caller, with a lease. */
  predicate HeldBy(r: Job, t: Job, c: Caller, now: int, lease: int) {
    && t.status == Claimed && t.attempts == r.attempts + 1
    && t.worker == Some(c.runnerId) && t.workerDeployment == c.deploymentId
    && FirstOf(t.workerTenant, c.tenantId, c.runnerTenantId)
    && t.claimedAt == Some(now) && t.lastHeartbeatAt == Some(now) && t.claimExpiresAt == Some(now + lease)
    && t.updatedAt == now
    && r == t.(status := r.status, attempts := r.attempts, worker := r.worker, workerDeployment := r.workerDeployment,
               workerTenant := r.workerTenant, claimedAt := r.claimedAt, lastHeartbeatAt := r.lastHeartbeatAt,
               claimExpiresAt := r.claimExpiresAt, updatedAt := r.updatedAt)
  }

  /** Exactly which claims succeed, and what they leave. */
  lemma ClaimAnswersIff(rows: Rows, id: string, c: Caller, now: int, lease: int, requireResumable: bool)
    ensures var (after, r) := Claim(rows, id, c, now, lease, requireResumable);
            && (r.Row? <==> Consistent(c) && lease >= 1 && id in rows && rows[id].status == Queued
                            && rows[id].attempts < rows[id].maxAttempts
                            && (c.tenantId.Some? ==> rows[id].tenant == c.tenantId.value)
                            && (c.runnerTenantId.Some? ==> rows[id].tenant == c.runnerTenantId.value)
                            && (requireResumable ==> rows[id].resumable && !rows[id].command.NoCommand?))
            && (r.Row? ==> OnlyRow(rows, after, id) && r.job == after[id] && HeldBy(rows[id], after[id], c, now, lease))
            && (!r.Row? ==> after == rows)
  {}

  /** `t` is `r` with its lease renewed. */
  predicate Renewed(r: Job, t: Job, now: int, lease: int, status: Status, pid: Option<int>, runId: Option<string>) {
    && t.status == (if r.status == Canceling then Canceling else status)
    && (if status == Running then FirstOf(t.startedAt, r.startedAt, Some(now)) else t.startedAt == r.startedAt)
    && FirstOf(t.pid, pid, r.pid) && FirstOf(t.runId, runId, r.runId)
    && t.lastHeartbeatAt == Some(now) && t.claimExpiresAt == Some(now + lease) && t.updatedAt == now
    && r == t.(status := r.status, startedAt := r.startedAt, pid := r.pid, runId := r.runId,
               lastHeartbeatAt := r.lastHeartbeatAt, claimExpiresAt := r.claimExpiresAt, updatedAt := r.updatedAt)
  }

  lemma HeartbeatAnswersIff(rows: Rows, id: string, c: Caller, now: int, lease: int, status: Status, pid: Option<int>, runId: Option<string>)
    ensures var (after, r) := Heartbeat(rows, id, c, now, lease, status, pid, runId);
            && (r.Row? <==> Consistent(c) && Active(status) && lease >= 1 && id in rows && Active(rows[id].status)
                            && MayAct(c, rows[id]))
            && (r.Row? ==> OnlyRow(rows, after, id) && r.job == after[id]
                           && Renewed(rows[id], after[id], now, lease, status, pid, runId))
            && (!r.Row? ==> after == rows)
  {}

  /** Whoever claims a job can renew the lease and complete the job, as long as nothing came in between. */
  lemma ClaimerMayAct(rows: Rows, id: string, c: Caller, now: int, lease: int, rr: bool, later: int, more: int, status: Status, rep: Report)
    requires Claim(rows, id, c, now, lease, rr).1.Row? && more >= 1
    ensures var held := Claim(rows, id, c, now, lease, rr).0;
            && (Active(status) ==> var beat := Heartbeat(held, id, c, later, more, status, None, None);
                                   beat.1.Row? && beat.0[id].claimExpiresAt == Some(later + more))
            && (Terminal(status) ==> var done := Complete(held, id, c, status, later, rep);
                                     done.1.Row? && done.0[id].status == status)
  {
    ClaimAnswersIff(rows, id, c, now, lease, rr);
    var held := Claim(rows, id, c, now, lease, rr).0;
    HeartbeatAnswersIff(held, id, c, later, more, status, None, None);
    CompleteAnswersIff(held, id, c, status, later, rep);
    hide Claim, Heartbeat, Complete, BindingFrom, Owns;
    if Terminal(status) { CompletionIsRecorded(held, id, c, status, later, rep); }
  }

  /** Through the runner store the claimer's heartbeat is accepted exactly until the lease has run out. */
  lemma StoreBeatsUntilLeaseEnds(rows: Rows, id: string, c: Caller, now: int, lease: int, rr: bool, later: int, more: int)
    requires Claim(rows, id, c, now, lease, rr).1.Row? && more >= 1
    ensures var held := Claim(rows, id, c, now, lease, rr).0;
            var beat := StoreHeartbeat(held, id, c, later, more, Running, None, None).1;
            if later < now + lease then beat.Did? && beat.reply.Row? else beat == Refused("stale-heartbeat")
  {
    ClaimAnswersIff(rows, id, c, now, lease, rr);
  }

  /**
  When a held row becomes stale: no sweep with a limit selects it before its lease or the limit since its last sign
  of life has run out, and every such sweep of its tenant does so from then on.
  */
  lemma GoesStaleIff(t: Job, now: int, lease: int, w: Sweep)
    requires Active(t.status) && t.lastHeartbeatAt == Some(now) && t.claimExpiresAt == Some(now + lease)
    ensures Selected(t, w)
            <==> ((w.tenant.Some? ==> w.tenant.value == t.tenant)
                  && (w.staleMs.Some? ==> w.now >= now + lease || w.now >= now + w.staleMs.value))
  {}

  // ----- cancels -----

  predicate Cancelled(r: Job, t: Job, now: int, reason: string) {
    && t.cancelled && t.updatedAt == now && FirstOf(t.cancelRequestedAt, r.cancelRequestedAt, Some(now))
    && (if r.status == Queued
        then t.status == Canceled && FirstOf(t.endedAt, r.endedAt, Some(now)) && FirstOf(t.failureReason, r.failureReason, Some(reason))
        else t.status == Canceling && t.endedAt == r.endedAt && t.failureReason == r.failureReason)
    && r == t.(status := r.status, cancelled := r.cancelled, cancelRequestedAt := r.cancelRequestedAt,
               endedAt := r.endedAt, failureReason := r.failureReason, updatedAt := r.updatedAt)
  }

  /** A cancel ends a waiting job and asks a running one to stop; an ended job is left alone. */
  lemma CancelIsRecorded(rows: Rows, id: string, tenant: Option<string>, now: int, reason: string)
    ensures var (after, r, first) := RequestCancel(rows, id, tenant, now, reason);
            && (r.Row? <==> id in rows && (tenant.Some? ==> rows[id].tenant == tenant.value))
            && (r.Row? ==> id in after && r.job == after[id] && OnlyRow(rows, after, id))
            && (r.Row? && Terminal(rows[id].status) ==> after == rows && !first)
            && (r.Row? && !Terminal(rows[id].status) ==>
                  Cancelled(rows[id], after[id], now, reason)
                  && (first <==> rows[id].status != Canceling && !rows[id].cancelled))
            && (!r.Row? ==> after == rows && !first)
  {}

  // ----- sweeps -----

  predicate BackInQueue(r: Job, t: Job, w: Sweep) {
    && t.status == Queued && t.worker.None? && t.workerTenant.None? && t.workerDeployment.None?
    && t.claimedAt.None? && t.startedAt.None? && t.pid.None? && t.lastHeartbeatAt.None? && t.claimExpiresAt.None?
    && FirstOf(t.failureReason, r.failureReason, Some(w.reason)) && t.updatedAt == w.now
    && r == t.(status := r.status, worker := r.worker, workerTenant := r.workerTenant, workerDeployment := r.workerDeployment,
               claimedAt := r.claimedAt, startedAt := r.startedAt, pid := r.pid, lastHeartbeatAt := r.lastHeartbeatAt,
               claimExpiresAt := r.claimExpiresAt, failureReason := r.failureReason, updatedAt := r.updatedAt)
  }

  predicate CutOff(r: Job, t: Job, w: Sweep) {
    && t.status == Interrupted && FirstOf(t.endedAt, r.endedAt, Some(w.now)) && t.updatedAt == w.now
    && FirstOf(t.failureReason, r.failureReason, Some(w.reason)) && FirstOf(t.error, r.error, Some(w.reason))
    && t.pid.None? && t.claimExpiresAt.None?
    && r == t.(status := r.status, endedAt := r.endedAt, updatedAt := r.updatedAt, failureReason := r.failureReason,
               error := r.error, pid := r.pid, claimExpiresAt := r.claimExpiresAt)
  }

  /**
  A swept row goes back to the queue exactly when retries are on, nobody asked it to stop, it can be resumed by a
  usable command, and an attempt is left; otherwise it is interrupted.
  */
  lemma SweepIsRecorded(rows: Rows, w: Sweep, id: string)
    requires Inv(rows) && !BadSweep(w) && id in rows && Selected(rows[id], w)
    ensures var r, t := rows[id], Reconcile(rows, w)[id];
            if w.retryStale && r.status != Canceling && !r.cancelled && r.resumable && r.command.UsableCommand?
               && r.attempts < r.maxAttempts
            then BackInQueue(r, t, w) else CutOff(r, t, w)
  {}
}
