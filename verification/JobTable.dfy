/** The job table updated in place, one exported operation at a time. */
module JobTable {
  import opened Wrappers
  import opened JobQueue
  import opened JobQueueEffects
  import Spec = JobQueue

  lemma {:induction false} StringLeTotal(a: string, b: string)
    ensures StringLe(a, b) || StringLe(b, a)
    ensures StringLe(a, b) && StringLe(b, a) ==> a == b
  {
    if a != [] && b != [] && a[0] == b[0] {
      StringLeTotal(a[1..], b[1..]);
      assert a == [a[0]] + a[1..] && b == [b[0]] + b[1..];
    }
  }

  lemma {:induction false} StringLeTransitive(a: string, b: string, c: string)
    requires StringLe(a, b) && StringLe(b, c)
    ensures StringLe(a, c)
  {
    if a != [] && b != [] && c != [] && a[0] == b[0] == c[0] {
      StringLeTransitive(a[1..], b[1..], c[1..]);
    }
  }

  lemma BeforeOrders(rows: Rows, a: string, b: string, c: string)
    requires a in rows && b in rows && c in rows
    ensures Before(rows, a, b) || Before(rows, b, a)
    ensures Before(rows, a, b) && Before(rows, b, a) ==> a == b
    ensures Before(rows, a, b) && Before(rows, b, c) ==> Before(rows, a, c)
  {
    StringLeTotal(a, b);
    if StringLe(a, b) && StringLe(b, c) { StringLeTransitive(a, b, c); }
  }

  /** The first of some rows in queue order. */
  method Earliest(rows: Rows, ids: set<string>) returns (first: string)
    requires ids != {} && ids <= rows.Keys
    ensures first in ids && forall k :: k in ids ==> Before(rows, first, k)
  {
    first :| first in ids;
    var rest := ids - {first};
    BeforeOrders(rows, first, first, first);
    while rest != {}
      invariant rest <= ids && first in ids
      invariant forall k :: k in ids - rest ==> Before(rows, first, k)
      decreases rest
    {
      var k :| k in rest;
      BeforeOrders(rows, k, first, first);
      BeforeOrders(rows, k, k, k);
      if !Before(rows, first, k) {
        forall m | m in ids - rest ensures Before(rows, k, m) { BeforeOrders(rows, k, first, m); }
        first := k;
      }
      rest := rest - {k};
    }
  }

  class Table {
    var rows: Rows

    constructor ()
      ensures rows == map[]
    {
      rows := map[];
    }

    method Claim(id: string, c: Caller, now: int, lease: int, requireResumable: bool) returns (r: Reply)
      modifies this
      ensures (rows, r) == Spec.Claim(old(rows), id, c, now, lease, requireResumable)
    {
      var binding := BindingFrom(c);
      if binding.None? { return Null; }
      if lease < 1 { return Threw; }
      var b := binding.value;
      if id !in rows || !Claimable(rows[id], b.tenant, requireResumable) { return Null; }
      var row := rows[id].(status := Claimed, attempts := rows[id].attempts + 1);
      row := row.(worker := Some(b.runnerId), workerTenant := b.runnerTenant, workerDeployment := b.deployment);
      row := row.(claimedAt := Some(now), lastHeartbeatAt := Some(now), claimExpiresAt := Some(now + lease), updatedAt := now);
      rows := rows[id := row];
      r := Row(row);
    }

    method ClaimNext(c: Caller, now: int, lease: int, requireResumable: bool, kinds: set<string>) returns (r: Reply)
      modifies this
      ensures (rows, r) == Spec.ClaimNext(old(rows), c, now, lease, requireResumable, kinds)
    {
      var binding := BindingFrom(c);
      if binding.None? { return Null; }
      var b := binding.value;
      var waiting := set id | id in rows && Waiting(rows[id], b.tenant, requireResumable, kinds);
      if waiting == {} {
        assert forall id :: IsNext(rows, b.tenant, requireResumable, kinds, id) ==> id in waiting;
        return Null;
      }
      var next := Earliest(rows, waiting);
      assert IsNext(rows, b.tenant, requireResumable, kinds, next);
      forall id | IsNext(rows, b.tenant, requireResumable, kinds, id) ensures id == next {
        BeforeOrders(rows, id, next, next);
      }
      r := Claim(next, Caller(b.runnerId, b.tenant, b.runnerTenant, b.deployment), now, lease, requireResumable);
    }

    method Heartbeat(id: string, c: Caller, now: int, lease: int, status: Status, pid: Option<int>, runId: Option<string>)
      returns (r: Reply)
      modifies this
      ensures (rows, r) == Spec.Heartbeat(old(rows), id, c, now, lease, status, pid, runId)
    {
      hide Owns, InTenant;
      var binding := BindingFrom(c);
      if binding.None? { return Null; }
      if !Active(status) || lease < 1 { return Threw; }
      if id !in rows || !Owns(binding.value, rows[id]) || !Active(rows[id].status) { return Null; }
      var row := rows[id];
      var startedAt := row.startedAt;
      if status == Running && startedAt.None? { startedAt := Some(now); }
      row := row.(status := if row.status == Canceling then Canceling else status, startedAt := startedAt,
                  pid := Coalesce(pid, row.pid), runId := Coalesce(runId, row.runId),
                  lastHeartbeatAt := Some(now), claimExpiresAt := Some(now + lease), updatedAt := now);
      rows := rows[id := row];
      r := Row(row);
    }

    method Complete(id: string, c: Caller, status: Status, now: int, rep: Report) returns (r: Reply)
      modifies this
      ensures (rows, r) == Spec.Complete(old(rows), id, c, status, now, rep)
      ensures r.Row? ==> OnlyRow(old(rows), rows, id) && r.job == rows[id] && HoldsReport(old(rows)[id], rows[id], status, now, rep)
    {
      var binding := BindingFrom(c);
      if binding.None? { return Null; }
      if !Terminal(status) { return Threw; }
      if id !in rows || !Owns(binding.value, rows[id]) || !Active(rows[id].status) { return Null; }
      var row := rows[id];
      var cancelled := row.cancelled || status == Canceled;
      row := row.(status := status, exitCode := rep.exitCode, cancelled := cancelled,
                  timedOut := status == Expired || rep.timedOut, endedAt := Coalesce(row.endedAt, Some(now)), pid := None,
                  runId := Coalesce(rep.runId, row.runId), exitSignal := rep.exitSignal, error := rep.error,
                  failureReason := rep.failureReason, result := Coalesce(rep.result, row.result),
                  log := Coalesce(rep.log, row.log), lastHeartbeatAt := Some(now), claimExpiresAt := None, updatedAt := now);
      rows := rows[id := row];
      r := Row(row);
    }

    /** The contract layer: read the row, then complete it with the status it may still have. */
    method ContractComplete(id: string, i: Identity, requestTenant: Option<string>, status: Status, now: int, rep: Report)
      returns (r: Reply)
      modifies this
      ensures (rows, r) == Spec.ContractComplete(old(rows), id, i, requestTenant, status, now, rep)
    {
      var c := ContractCaller(i, requestTenant);
      var current := Lookup(rows, id, c.tenantId);
      var stop := current.Some? && (current.value.status == Canceling || current.value.cancelled);
      var terminal, report := status, rep;
      if stop {
        terminal := Canceled;
        if rep.failureReason.None? || rep.failureReason.value == "" {
          report := rep.(failureReason := Some("runner cancel requested"));
        }
      }
      r := Complete(id, c, terminal, now, report);
    }

    /** The runner store: check ownership and state, then complete. */
    method StoreComplete(id: string, c: Caller, status: Status, now: int, rep: Report) returns (r: StoreReply)
      modifies this
      ensures (rows, r) == Spec.StoreComplete(old(rows), id, c, status, now, rep)
    {
      var checked := Precheck(rows, id, c);
      if checked.Err? { return Refused(checked.error); }
      var stop := checked.value.status == Canceling || checked.value.cancelled;
      var done := Complete(id, StoreCaller(c), if stop then Canceled else status, now, WithCancelReason(stop, rep));
      r := if done == Null then Refused("not-active") else Did(done);
    }

    method RequestCancel(id: string, tenant: Option<string>, now: int, reason: string) returns (r: Reply, changed: bool)
      modifies this
      ensures (rows, r, changed) == Spec.RequestCancel(old(rows), id, tenant, now, reason)
    {
      var before := Lookup(rows, id, tenant);
      if before.None? { return Null, false; }
      if Terminal(before.value.status) { return Row(before.value), false; }
      changed := !(before.value.cancelled || before.value.status == Canceling);
      var row := before.value.(cancelled := true, updatedAt := now);
      if row.cancelRequestedAt.None? { row := row.(cancelRequestedAt := Some(now)); }
      if before.value.status == Queued {
        row := row.(status := Canceled);
        if row.endedAt.None? { row := row.(endedAt := Some(now)); }
        if row.failureReason.None? { row := row.(failureReason := Some(reason)); }
      } else {
        row := row.(status := Canceling);
      }
      rows := rows[id := row];
      r := Row(row);
    }

    /** Sweep the stale active rows, and report them in queue order. */
    method Reconcile(w: Sweep) returns (out: seq<Swept>)
      requires !BadSweep(w)
      modifies this
      ensures rows == Spec.Reconcile(old(rows), w)
      ensures Reported(old(rows), w, {}, out)
    {
      var snapshot := rows;
      var todo := set id | id in rows && Selected(rows[id], w);
      out := [];
      while todo != {}
        invariant todo <= snapshot.Keys && forall id :: id in todo ==> Selected(snapshot[id], w)
        invariant rows == map id | id in snapshot :: if id in todo then snapshot[id] else SweptRow(snapshot[id], w)
        invariant Reported(snapshot, w, todo, out)
        decreases todo
      {
        var id := Earliest(snapshot, todo);
        var row := snapshot[id];
        ReportGrows(snapshot, w, todo, out, id);
        if CanRetry(row, w) {
          rows := rows[id := RetriedRow(rows[id], w)];
          out := out + [Swept(id, ReportedRow(row, w), true)];
        } else {
          rows := rows[id := InterruptedRow(rows[id], w)];
          out := out + [Swept(id, ReportedRow(row, w), false)];
        }
        todo := todo - {id};
      }
    }
  }

  /** `out` lists, in queue order and once each, exactly the selected rows that are not in `todo`. */
  ghost predicate Reported(rows: Rows, w: Sweep, todo: set<string>, out: seq<Swept>) {
    && (forall i :: 0 <= i < |out| ==>
          && out[i].id in rows && out[i].id !in todo && Selected(rows[out[i].id], w)
          && out[i].job == ReportedRow(rows[out[i].id], w) && out[i].requeued == CanRetry(rows[out[i].id], w))
    && (forall i, j :: 0 <= i < j < |out| ==> out[i].id != out[j].id && Before(rows, out[i].id, out[j].id))
    && (forall i, k :: 0 <= i < |out| && k in todo && k in rows ==> Before(rows, out[i].id, k))
    && (forall id :: id in rows && Selected(rows[id], w) && id !in todo ==> Listed(out, id))
  }

  ghost predicate Listed(out: seq<Swept>, id: string) { exists i :: 0 <= i < |out| && out[i].id == id }

  lemma ReportGrows(rows: Rows, w: Sweep, todo: set<string>, out: seq<Swept>, id: string)
    requires Reported(rows, w, todo, out) && todo <= rows.Keys && id in todo && Selected(rows[id], w)
    requires forall k :: k in todo ==> Before(rows, id, k)
    ensures Reported(rows, w, todo - {id}, out + [Swept(id, ReportedRow(rows[id], w), CanRetry(rows[id], w))])
  {
    hide ReportedRow, CanRetry, Selected, Before;
    var grown := out + [Swept(id, ReportedRow(rows[id], w), CanRetry(rows[id], w))];
    assert forall i :: 0 <= i < |out| ==> grown[i] == out[i];
    forall k | k in rows && Selected(rows[k], w) && k !in todo - {id} ensures Listed(grown, k) {
      if k == id { assert grown[|out|].id == k; } else {
        var i :| 0 <= i < |out| && out[i].id == k;
        assert grown[i].id == k;
      }
    }
  }
}
