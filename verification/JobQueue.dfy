/**
The durable job table: claim, heartbeat, complete, cancel and reconcile as guarded updates of rows, and the
runner store and runner contract layers above them. Each operation is one atomic step.
*/
module JobQueue {
  import opened Wrappers

  datatype Status = Queued | Claimed | Running | Canceling | Canceled | Succeeded | Failed | Interrupted | Expired

  /** `command_json`: SQL NULL, a text that parses to a falsy value (or not at all), or a usable command. */
  datatype Command = NoCommand | FalsyCommand(text: string) | UsableCommand(text: string)

  datatype Job = Job(
    tenant: string, kind: string, status: Status, exitCode: Option<int>, cancelled: bool,
    cancelRequestedAt: Option<int>, timedOut: bool, enqueuedAt: int, claimedAt: Option<int>,
    startedAt: Option<int>, endedAt: Option<int>, pid: Option<int>, worker: Option<string>,
    workerTenant: Option<string>, workerDeployment: Option<string>, lastHeartbeatAt: Option<int>,
    claimExpiresAt: Option<int>, attempts: nat, maxAttempts: nat, runId: Option<string>,
    exitSignal: Option<string>, error: Option<string>, failureReason: Option<string>, result: Option<string>,
    log: Option<string>, command: Command, resumable: bool, updatedAt: int)

  type Rows = map<string, Job>

  predicate Active(s: Status) { s in {Claimed, Running, Canceling} }
  predicate Terminal(s: Status) { s in {Canceled, Succeeded, Failed, Interrupted, Expired} }

  function Coalesce<T>(a: Option<T>, b: Option<T>): Option<T> { if a.Some? then a else b }

  // ----- who is calling -----

  /** The identity options of a call; absent options are `None`. */
  datatype Caller = Caller(
    runnerId: string, tenantId: Option<string>, runnerTenantId: Option<string>, deploymentId: Option<string>)

  datatype Binding = Binding(
    runnerId: string, tenant: Option<string>, runnerTenant: Option<string>, deployment: Option<string>)

  /** Contradictory tenants give no binding, and every operation then answers null. */
  function BindingFrom(c: Caller): Option<Binding> {
    if c.tenantId.Some? && c.runnerTenantId.Some? && c.tenantId != c.runnerTenantId then None
    else Some(Binding(c.runnerId, Coalesce(c.tenantId, c.runnerTenantId),
                      Coalesce(c.runnerTenantId, c.tenantId), c.deploymentId))
  }

  /** The identity part of a WHERE clause. NULL never equals a worker id. */
  predicate Owns(b: Binding, r: Job) {
    && r.worker == Some(b.runnerId)
    && (b.runnerTenant.Some? ==> r.workerTenant == b.runnerTenant)
    && (b.deployment.Some? ==> r.workerDeployment == b.deployment)
  }

  predicate InTenant(tenant: Option<string>, r: Job) { tenant.Some? ==> r.tenant == tenant.value }

  /** What an operation answers: it throws, answers null, or answers the row as it now is. */
  datatype Reply = Threw | Null | Row(job: Job)

  function Lookup(rows: Rows, id: string, tenant: Option<string>): Option<Job> {
    if id in rows && InTenant(tenant, rows[id]) then Some(rows[id]) else None
  }

  // ----- claim -----

  predicate Claimable(r: Job, tenant: Option<string>, requireResumable: bool) {
    && r.status == Queued && r.attempts < r.maxAttempts && InTenant(tenant, r)
    && (requireResumable ==> r.resumable && r.command != NoCommand)
  }

  function ClaimedRow(r: Job, b: Binding, now: int, lease: int): Job {
    r.(status := Claimed, claimedAt := Some(now), worker := Some(b.runnerId), workerTenant := b.runnerTenant,
       workerDeployment := b.deployment, lastHeartbeatAt := Some(now), claimExpiresAt := Some(now + lease),
       attempts := r.attempts + 1, updatedAt := now)
  }

  function Claim(rows: Rows, id: string, c: Caller, now: int, lease: int, requireResumable: bool): (Rows, Reply) {
    match BindingFrom(c)
    case None => (rows, Null)
    case Some(b) =>
      if lease < 1 then (rows, Threw)
      else if id !in rows || !Claimable(rows[id], b.tenant, requireResumable) then (rows, Null)
      else var r := ClaimedRow(rows[id], b, now, lease); (rows[id := r], Row(r))
  }

  /** `ORDER BY enqueued_at ASC, id ASC`, with ids compared code point by code point. */
  predicate StringLe(a: string, b: string) {
    a == [] || (b != [] && (a[0] < b[0] || (a[0] == b[0] && StringLe(a[1..], b[1..]))))
  }

  predicate Before(rows: Rows, a: string, b: string)
    requires a in rows && b in rows
  {
    rows[a].enqueuedAt < rows[b].enqueuedAt || (rows[a].enqueuedAt == rows[b].enqueuedAt && StringLe(a, b))
  }

  predicate Waiting(r: Job, tenant: Option<string>, requireResumable: bool, kinds: set<string>) {
    Claimable(r, tenant, requireResumable) && (kinds != {} ==> r.kind in kinds)
  }

  /** `id` is the row the claim-next SELECT returns. */
  ghost predicate IsNext(rows: Rows, tenant: Option<string>, requireResumable: bool, kinds: set<string>, id: string) {
    && id in rows && Waiting(rows[id], tenant, requireResumable, kinds)
    && forall k :: k in rows && Waiting(rows[k], tenant, requireResumable, kinds) ==> Before(rows, id, k)
  }

  ghost function ClaimNext(rows: Rows, c: Caller, now: int, lease: int, requireResumable: bool, kinds: set<string>)
    : (Rows, Reply)
  {
    match BindingFrom(c)
    case None => (rows, Null)
    case Some(b) =>
      if exists id :: IsNext(rows, b.tenant, requireResumable, kinds, id) then
        var id :| IsNext(rows, b.tenant, requireResumable, kinds, id);
        Claim(rows, id, Caller(b.runnerId, b.tenant, b.runnerTenant, b.deployment), now, lease, requireResumable)
      else (rows, Null)
  }

  // ----- heartbeat -----

  function HeartbeatRow(r: Job, status: Status, now: int, lease: int, pid: Option<int>, runId: Option<string>): Job {
    r.(status := if r.status == Canceling then Canceling else status,
       startedAt := if status == Running then Coalesce(r.startedAt, Some(now)) else r.startedAt,
       pid := Coalesce(pid, r.pid), runId := Coalesce(runId, r.runId),
       lastHeartbeatAt := Some(now), claimExpiresAt := Some(now + lease), updatedAt := now)
  }

  function Heartbeat(rows: Rows, id: string, c: Caller, now: int, lease: int, status: Status,
                     pid: Option<int>, runId: Option<string>): (Rows, Reply) {
    match BindingFrom(c)
    case None => (rows, Null)
    case Some(b) =>
      if !Active(status) || lease < 1 then (rows, Threw)
      else if id !in rows || !Owns(b, rows[id]) || !Active(rows[id].status) then (rows, Null)
      else var r := HeartbeatRow(rows[id], status, now, lease, pid, runId); (rows[id := r], Row(r))
  }

  // ----- complete -----

  datatype Report = Report(
    exitCode: Option<int>, result: Option<string>, log: Option<string>, runId: Option<string>,
    exitSignal: Option<string>, error: Option<string>, failureReason: Option<string>, timedOut: bool)

  function CompletedRow(r: Job, status: Status, now: int, rep: Report): Job {
    r.(status := status, exitCode := rep.exitCode, cancelled := r.cancelled || status == Canceled,
       timedOut := status == Expired || rep.timedOut, endedAt := Coalesce(r.endedAt, Some(now)), pid := None,
       runId := Coalesce(rep.runId, r.runId), exitSignal := rep.exitSignal, error := rep.error,
       failureReason := rep.failureReason, result := Coalesce(rep.result, r.result), log := Coalesce(rep.log, r.log),
       lastHeartbeatAt := Some(now), claimExpiresAt := None, updatedAt := now)
  }

  function Complete(rows: Rows, id: string, c: Caller, status: Status, now: int, rep: Report): (Rows, Reply) {
    match BindingFrom(c)
    case None => (rows, Null)
    case Some(b) =>
      if !Terminal(status) then (rows, Threw)
      else if id !in rows || !Owns(b, rows[id]) || !Active(rows[id].status) then (rows, Null)
      else var r := CompletedRow(rows[id], status, now, rep); (rows[id := r], Row(r))
  }

  function WithCancelReason(cancelRequested: bool, rep: Report): Report {
    if cancelRequested && (rep.failureReason.None? || rep.failureReason.value == "")
    then rep.(failureReason := Some("runner cancel requested")) else rep
  }

  predicate CancelRequested(r: Job) { r.status == Canceling || r.cancelled }

  /** A validated runner identity, and the tenant and deployment a request asks for. */
  datatype Identity = Identity(runnerId: string, tenantId: string, deploymentId: string, tenantBindingRequired: bool)

  function ContractCaller(i: Identity, requestTenant: Option<string>): Caller {
    var tenant := if i.tenantBindingRequired then Some(i.tenantId) else requestTenant;
    Caller(i.runnerId, tenant, tenant, Some(i.deploymentId))
  }

  /** The contract layer reports `canceled` for a job whose cancellation it sees, whatever the runner says. */
  function ContractComplete(rows: Rows, id: string, i: Identity, requestTenant: Option<string>, status: Status,
                            now: int, rep: Report): (Rows, Reply) {
    var c := ContractCaller(i, requestTenant);
    var current := Lookup(rows, id, c.tenantId);
    var stop := current.Some? && CancelRequested(current.value);
    Complete(rows, id, c, if stop then Canceled else status, now, WithCancelReason(stop, rep))
  }

  /** The store passes `runnerTenantId || tenantId`. */
  function StoreCaller(c: Caller): Caller { c.(runnerTenantId := Coalesce(c.runnerTenantId, c.tenantId)) }

  datatype StoreReply = Refused(code: string) | Did(reply: Reply)

  function ActiveOwnerRefusal(r: Job, c: Caller, code: string): Option<string> {
    if !Active(r.status) then None
    else if r.worker.Some? && r.worker.value != c.runnerId then Some(code)
    else if r.workerTenant.Some? && r.workerTenant != Coalesce(c.runnerTenantId, c.tenantId) then Some("tenant-scope-refused")
    else if r.workerDeployment.Some? && r.workerDeployment.value != (if c.deploymentId.Some? then c.deploymentId.value else "")
    then Some(code) else None
  }

  function Precheck(rows: Rows, id: string, c: Caller): Result<Job, string> {
    match Lookup(rows, id, c.tenantId)
    case None => Err("not-found")
    case Some(r) =>
      var owner := ActiveOwnerRefusal(r, c, "foreign-runner");
      if owner.Some? then Err(owner.value)
      else if Terminal(r.status) then Err("already-terminal")
      else if !Active(r.status) then Err("not-active") else Ok(r)
  }

  function StoreComplete(rows: Rows, id: string, c: Caller, status: Status, now: int, rep: Report): (Rows, StoreReply) {
    match Precheck(rows, id, c)
    case Err(code) => (rows, Refused(code))
    case Ok(r) =>
      var stop := CancelRequested(r);
      var done := Complete(rows, id, StoreCaller(c), if stop then Canceled else status, now, WithCancelReason(stop, rep));
      (done.0, if done.1 == Null then Refused("not-active") else Did(done.1))
  }

  function StoreHeartbeat(rows: Rows, id: string, c: Caller, now: int, lease: int, status: Status,
                          pid: Option<int>, runId: Option<string>): (Rows, StoreReply) {
    match Precheck(rows, id, c)
    case Err(code) => (rows, Refused(code))
    case Ok(r) =>
      if r.claimExpiresAt.Some? && r.claimExpiresAt.value <= now then (rows, Refused("stale-heartbeat"))
      else
        var done := Heartbeat(rows, id, StoreCaller(c), now, lease, status, pid, runId);
        (done.0, if done.1 == Null then Refused("not-active") else Did(done.1))
  }

  // ----- cancel -----

  function CanceledRow(r: Job, now: int, reason: string): Job {
    var next := if r.status == Queued then Canceled else Canceling;
    r.(status := next, cancelled := true, cancelRequestedAt := Coalesce(r.cancelRequestedAt, Some(now)),
       endedAt := if next == Canceled then Coalesce(r.endedAt, Some(now)) else r.endedAt,
       failureReason := if next == Canceled then Coalesce(r.failureReason, Some(reason)) else r.failureReason,
       updatedAt := now)
  }

  /** Also answers whether this request was the first one. */
  function RequestCancel(rows: Rows, id: string, tenant: Option<string>, now: int, reason: string): (Rows, Reply, bool) {
    match Lookup(rows, id, tenant)
    case None => (rows, Null, false)
    case Some(r) =>
      if Terminal(r.status) then (rows, Row(r), false)
      else var n := CanceledRow(r, now, reason); (rows[id := n], Row(n), !CancelRequested(r))
  }

  // ----- reconcile -----

  datatype Sweep = Sweep(now: int, reason: string, staleMs: Option<int>, retryStale: bool, tenant: Option<string>)

  predicate IsStale(r: Job, w: Sweep) {
    w.staleMs.Some? ==>
      || r.claimExpiresAt.None? || r.claimExpiresAt.value <= w.now
      || r.lastHeartbeatAt.None? || r.lastHeartbeatAt.value <= w.now - w.staleMs.value
  }

  predicate Selected(r: Job, w: Sweep) { Active(r.status) && InTenant(w.tenant, r) && IsStale(r, w) }

  /** A stored `max_attempts` of 0 reads back as 1. */
  function ReadMax(r: Job): nat { if r.maxAttempts == 0 then 1 else r.maxAttempts }

  predicate CanRetry(r: Job, w: Sweep) {
    w.retryStale && r.status != Canceling && !r.cancelled && r.resumable && r.command.UsableCommand? && r.attempts < ReadMax(r)
  }

  function RetriedRow(r: Job, w: Sweep): Job {
    r.(status := Queued, claimedAt := None, startedAt := None, pid := None, worker := None, workerTenant := None,
       workerDeployment := None, lastHeartbeatAt := None, claimExpiresAt := None, updatedAt := w.now,
       failureReason := Coalesce(r.failureReason, Some(w.reason)))
  }

  function InterruptedRow(r: Job, w: Sweep): Job {
    r.(status := Interrupted, endedAt := Coalesce(r.endedAt, Some(w.now)), updatedAt := w.now, pid := None,
       claimExpiresAt := None, failureReason := Coalesce(r.failureReason, Some(w.reason)),
       error := Coalesce(r.error, Some(w.reason)))
  }

  function SweptRow(r: Job, w: Sweep): Job {
    if !Selected(r, w) then r else if CanRetry(r, w) then RetriedRow(r, w) else InterruptedRow(r, w)
  }

  predicate BadSweep(w: Sweep) { w.staleMs.Some? && w.staleMs.value < 1 }

  function Reconcile(rows: Rows, w: Sweep): Rows {
    if BadSweep(w) then rows else map id | id in rows :: SweptRow(rows[id], w)
  }

  /** What the reconcile call reports about one row, computed from the row it read before the update. */
  datatype Swept = Swept(id: string, job: Job, requeued: bool)

  function OrText(a: Option<string>, b: string): Option<string> {
    if a.Some? && a.value != "" then a else Some(b)
  }

  function ReportedRow(r: Job, w: Sweep): Job {
    if CanRetry(r, w) then
      r.(status := Queued, claimedAt := None, startedAt := None, pid := None, worker := None, workerTenant := None,
         workerDeployment := None, lastHeartbeatAt := None, claimExpiresAt := None,
         failureReason := OrText(r.failureReason, w.reason), updatedAt := w.now)
    else
      r.(status := Interrupted, endedAt := if r.endedAt.Some? && r.endedAt.value != 0 then r.endedAt else Some(w.now),
         pid := None, claimExpiresAt := None, failureReason := OrText(r.failureReason, w.reason),
         error := OrText(r.error, w.reason), updatedAt := w.now)
  }

  // ----- runs -----

  datatype Layer = Direct(caller: Caller) | Contract(identity: Identity, requestTenant: Option<string>) | Store(ctx: Caller)

  datatype Event =
    | Enqueue(id: string, job: Job)
    | ClaimJob(id: string, caller: Caller, now: int, lease: int, requireResumable: bool)
    | ClaimNextJob(caller: Caller, now: int, lease: int, requireResumable: bool, kinds: set<string>)
    | HeartbeatJob(id: string, layer: Layer, now: int, lease: int, status: Status, pid: Option<int>, runId: Option<string>)
    | CompleteJob(id: string, layer: Layer, status: Status, now: int, report: Report)
    | CancelJob(id: string, tenant: Option<string>, now: int, reason: string)
    | ReconcileJobs(sweep: Sweep)

  /** What enqueueing writes: a queued row nobody has touched. */
  predicate Fresh(r: Job) {
    r.status == Queued && !r.cancelled && r.attempts == 0 < r.maxAttempts && r.worker.None? && r.workerTenant.None?
  }

  ghost function Step(rows: Rows, e: Event): Rows {
    match e
    case Enqueue(id, job) => if id in rows || !Fresh(job) then rows else rows[id := job]
    case ClaimJob(id, c, now, lease, rr) => Claim(rows, id, c, now, lease, rr).0
    case ClaimNextJob(c, now, lease, rr, kinds) => ClaimNext(rows, c, now, lease, rr, kinds).0
    case HeartbeatJob(id, layer, now, lease, status, pid, runId) =>
      (match layer
       case Direct(c) => Heartbeat(rows, id, c, now, lease, status, pid, runId).0
       case Contract(i, t) => Heartbeat(rows, id, ContractCaller(i, t), now, lease, status, pid, runId).0
       case Store(c) => StoreHeartbeat(rows, id, c, now, lease, status, pid, runId).0)
    case CompleteJob(id, layer, status, now, rep) =>
      (match layer
       case Direct(c) => Complete(rows, id, c, status, now, rep).0
       case Contract(i, t) => ContractComplete(rows, id, i, t, status, now, rep).0
       case Store(c) => StoreComplete(rows, id, c, status, now, rep).0)
    case CancelJob(id, tenant, now, reason) => RequestCancel(rows, id, tenant, now, reason).0
    case ReconcileJobs(w) => Reconcile(rows, w)
  }

  ghost function Run(rows: Rows, events: seq<Event>): Rows {
    if events == [] then rows else Step(Run(rows, events[..|events| - 1]), events[|events| - 1])
  }
}
