/**
The hash-chained audit table: appending rows and verifying the chain, with the older row encoding still accepted.

The digest is a parameter; where a theorem needs it, it is collision free and never the empty text.
*/
module AuditChain {
  import opened Wrappers

  datatype Fields = Fields(
    at: string, tenantId: string, actorId: string, actorRole: Option<string>, sessionId: Option<string>,
    jobId: string, kind: string, event: string, status: string, route: Option<string>,
    commandJson: Option<string>, system: Option<string>, resultJson: Option<string>, dataJson: Option<string>)

  datatype Row = Row(id: nat, fields: Fields, redaction: Option<string>, prevHash: Option<string>, hash: string)

  /** The two JSON texts that were ever hashed; their key sets differ, so no text is both. */
  datatype Encoding =
    | Full(fields: Fields, redaction: string, prevHash: Option<string>)
    | Legacy(at: string, tenantId: string, actorId: string, jobId: string, kind: string, event: string,
             status: string, resultJson: Option<string>, dataJson: Option<string>, prevHash: Option<string>)

  type Digest = Encoding -> string

  ghost predicate CollisionFree(d: Digest) {
    (forall x, y :: d(x) == d(y) ==> x == y) && forall x :: d(x) != ""
  }

  /** `value || fallback` for a text column. */
  function Or(value: Option<string>, fallback: string): string {
    if value.Some? && value.value != "" then value.value else fallback
  }

  function FullOf(r: Row): Encoding { Full(r.fields, Or(r.redaction, "applied"), r.prevHash) }

  function LegacyOf(r: Row): Encoding {
    var f := r.fields;
    Legacy(f.at, f.tenantId, f.actorId, f.jobId, f.kind, f.event, f.status, f.resultJson, f.dataJson, r.prevHash)
  }

  function Head(rows: seq<Row>): string { if rows == [] then "" else rows[|rows| - 1].hash }

  predicate Linked(rows: seq<Row>, i: nat)
    requires i < |rows|
  {
    Or(rows[i].prevHash, "") == Head(rows[..i])
  }

  predicate Sealed(d: Digest, r: Row) { r.hash == d(FullOf(r)) || r.hash == d(LegacyOf(r)) }

  predicate ValidPrefix(d: Digest, rows: seq<Row>, n: nat)
    requires n <= |rows|
  {
    forall i :: 0 <= i < n ==> Linked(rows, i) && Sealed(d, rows[i])
  }

  predicate Intact(d: Digest, rows: seq<Row>) { ValidPrefix(d, rows, |rows|) }

  datatype Reason = PrevHashMismatch | HashMismatch

  datatype Verdict =
    | Verified(checked: nat, firstId: Option<nat>, lastId: Option<nat>, headHash: string)
    | Broken(checked: nat, brokenAt: nat, reason: Reason, expected: string, actual: string)

  /** Walk the chain from the oldest row; `checked` is the length of the longest valid prefix. */
  method Verify(d: Digest, rows: seq<Row>) returns (v: Verdict)
    ensures v.Verified? <==> Intact(d, rows)
    ensures v.checked <= |rows| && ValidPrefix(d, rows, v.checked)
    ensures v.Verified? ==> v.checked == |rows| && v.headHash == Head(rows)
    ensures v.Verified? ==> v.firstId == (if rows == [] then None else Some(rows[0].id))
    ensures v.Verified? ==> v.lastId == (if rows == [] then None else Some(rows[|rows| - 1].id))
    ensures v.Broken? ==> v.checked < |rows| && !ValidPrefix(d, rows, v.checked + 1)
    ensures v.Broken? ==> v.brokenAt == rows[v.checked].id && v.expected != v.actual
    ensures v.Broken? ==> (v.reason == PrevHashMismatch <==> !Linked(rows, v.checked))
  {
    var prevHash := "";
    var checked := 0;
    while checked < |rows|
      invariant 0 <= checked <= |rows| && ValidPrefix(d, rows, checked) && prevHash == Head(rows[..checked])
    {
      var row := rows[checked];
      var actualPrev := Or(row.prevHash, "");
      if actualPrev != prevHash {
        assert !Linked(rows, checked);
        return Broken(checked, row.id, PrevHashMismatch, prevHash, actualPrev);
      }
      var expectedHash := d(FullOf(row));
      if row.hash != expectedHash && row.hash != d(LegacyOf(row)) {
        assert !Sealed(d, rows[checked]);
        return Broken(checked, row.id, HashMismatch, expectedHash, row.hash);
      }
      prevHash := row.hash;
      checked := checked + 1;
    }
    assert rows[..|rows|] == rows;
    v := Verified(checked, if rows == [] then None else Some(rows[0].id),
                  if rows == [] then None else Some(rows[|rows| - 1].id), prevHash);
  }

  // ----- appending -----

  const STATUSES := {"queued", "claimed", "running", "canceling", "canceled", "succeeded", "failed", "interrupted", "expired"}

  function Appended(d: Digest, rows: seq<Row>, id: nat, f: Fields, redaction: Option<string>): Row {
    var unsealed := Row(id, f, Some(Or(redaction, "applied")), Some(Head(rows)), "");
    unsealed.(hash := d(FullOf(unsealed)))
  }

  /** Row `r`, appended behind `rows`, holds this event under this number, sealed over all of it and the head before. */
  predicate Holds(d: Digest, rows: seq<Row>, r: Row, id: nat, f: Fields, redaction: Option<string>) {
    && r.id == id && r.fields == f
    && r.redaction == Some(if redaction.Some? && redaction.value != "" then redaction.value else "applied")
    && r.prevHash == Some(if rows == [] then "" else rows[|rows| - 1].hash)
    && r.hash == d(Full(f, r.redaction.value, r.prevHash))
  }

  class AuditLog {
    const digest: Digest
    var rows: seq<Row>
    var nextId: nat

    constructor (digest: Digest)
      ensures this.digest == digest && rows == [] && Intact(digest, rows)
    {
      this.digest := digest;
      rows, nextId := [], 1;
    }

    /** An event with an unknown status throws and leaves the table alone. */
    method Append(f: Fields, redaction: Option<string>) returns (r: Result<nat, string>)
      modifies this
      ensures r.Ok? <==> f.status in STATUSES
      ensures rows == if r.Ok? then old(rows) + [Appended(digest, old(rows), old(nextId), f, redaction)] else old(rows)
      ensures r.Ok? ==> |rows| == |old(rows)| + 1 && rows[..|old(rows)|] == old(rows)
                        && Holds(digest, old(rows), rows[|old(rows)|], old(nextId), f, redaction)
      ensures if r.Ok? then r.value == old(nextId) == nextId - 1 else nextId == old(nextId)
      ensures Intact(digest, old(rows)) ==> Intact(digest, rows)
    {
      if f.status !in STATUSES { return Err("webui job: invalid status"); }
      var prev := if rows == [] then "" else rows[|rows| - 1].hash;
      var row := Row(nextId, f, Some(Or(redaction, "applied")), Some(prev), "");
      var hash := digest(FullOf(row));
      AppendStaysIntact(digest, rows, nextId, f, redaction);
      rows := rows + [row.(hash := hash)];
      r := Ok(nextId);
      nextId := nextId + 1;
    }
  }

  lemma AppendStaysIntact(d: Digest, rows: seq<Row>, id: nat, f: Fields, redaction: Option<string>)
    ensures var t := rows + [Appended(d, rows, id, f, redaction)];
            && Intact(d, rows) ==> Intact(d, t)
  {
    var t := rows + [Appended(d, rows, id, f, redaction)];
    assert forall i :: 0 <= i <= |rows| ==> t[..i] == rows[..i];
    assert rows[..|rows|] == rows;
    if Intact(d, rows) {
      forall i | 0 <= i < |t| ensures Linked(t, i) && Sealed(d, t[i]) {
        if i < |rows| { assert Linked(rows, i) && Sealed(d, rows[i]); }
      }
    }
  }

  function AppendAll(d: Digest, rows: seq<Row>, events: seq<(nat, Fields, Option<string>)>): seq<Row>
    decreases |events|
  {
    if events == [] then rows
    else AppendAll(d, rows + [Appended(d, rows, events[0].0, events[0].1, events[0].2)], events[1..])
  }

  /** Whatever is appended to an intact log, old encodings included, verification accepts the result. */
  lemma {:induction false} AppendedLogsVerify(d: Digest, rows: seq<Row>, events: seq<(nat, Fields, Option<string>)>)
    requires Intact(d, rows)
    ensures Intact(d, AppendAll(d, rows, events))
    decreases |events|
  {
    if events != [] {
      AppendStaysIntact(d, rows, events[0].0, events[0].1, events[0].2);
      AppendedLogsVerify(d, rows + [Appended(d, rows, events[0].0, events[0].1, events[0].2)], events[1..]);
    }
  }

  /** And the log holds exactly the given events, in order, behind what was there. */
  lemma {:induction false} AppendedLogsHoldTheEvents(d: Digest, rows: seq<Row>, events: seq<(nat, Fields, Option<string>)>)
    ensures var t := AppendAll(d, rows, events);
            && |t| == |rows| + |events| && t[..|rows|] == rows
            && forall i :: 0 <= i < |events| ==>
                 Holds(d, t[..|rows| + i], t[|rows| + i], events[i].0, events[i].1, events[i].2)
    decreases |events|
  {
    if events != [] {
      var more := rows + [Appended(d, rows, events[0].0, events[0].1, events[0].2)];
      AppendedLogsHoldTheEvents(d, more, events[1..]);
      var t := AppendAll(d, rows, events);
      hide Holds, Appended, AppendAll;
      assert t[..|more|] == more && more[..|rows|] == rows;
      assert t[..|rows|] == t[..|more|][..|rows|];
      assert t[|rows|] == t[..|more|][|rows|];
      assert Holds(d, rows, more[|rows|], events[0].0, events[0].1, events[0].2) by { AppendedHolds(d, rows, events[0]); }
      forall i | 0 <= i < |events|
        ensures Holds(d, t[..|rows| + i], t[|rows| + i], events[i].0, events[i].1, events[i].2)
      {
        if i > 0 { assert events[i] == events[1..][i - 1] && |rows| + i == |more| + (i - 1); }
      }
    }
  }

  lemma AppendedHolds(d: Digest, rows: seq<Row>, e: (nat, Fields, Option<string>))
    ensures Holds(d, rows, Appended(d, rows, e.0, e.1, e.2), e.0, e.1, e.2)
  {}

  // ----- tamper evidence -----

  /** Same hash, sealed the same way, and equal on everything that way of sealing covers. */
  predicate Agree(d: Digest, a: Row, b: Row) {
    && a.hash == b.hash
    && (a.hash == d(FullOf(a)) <==> b.hash == d(FullOf(b)))
    && (if a.hash == d(FullOf(a)) then FullOf(a) == FullOf(b) else LegacyOf(a) == LegacyOf(b))
  }

  lemma SameHashAgrees(d: Digest, a: Row, b: Row)
    requires CollisionFree(d) && Sealed(d, a) && Sealed(d, b) && a.hash == b.hash
    ensures Agree(d, a, b) && a.prevHash == b.prevHash
  {
    assert FullOf(a) != LegacyOf(b) && FullOf(b) != LegacyOf(a);
  }

  lemma IntactFront(d: Digest, rows: seq<Row>)
    requires Intact(d, rows) && rows != []
    ensures Intact(d, rows[..|rows| - 1]) && Head(rows[..|rows| - 1]) == Or(rows[|rows| - 1].prevHash, "")
  {
    var front := rows[..|rows| - 1];
    forall i | 0 <= i < |front| ensures Linked(front, i) && Sealed(d, front[i]) {
      assert front[..i] == rows[..i] && Linked(rows, i) && Sealed(d, rows[i]);
    }
    assert Linked(rows, |rows| - 1);
  }

  /** The last rows agree, and so do the heads before them. */
  lemma LastRowsAgree(d: Digest, a: seq<Row>, b: seq<Row>)
    requires CollisionFree(d) && Intact(d, a) && Intact(d, b) && Head(a) == Head(b)
    ensures a == [] <==> b == []
    ensures a != [] ==> Agree(d, a[|a| - 1], b[|b| - 1]) && Head(a[..|a| - 1]) == Head(b[..|b| - 1])
  {
    assert a != [] ==> Sealed(d, a[|a| - 1]);
    assert b != [] ==> Sealed(d, b[|b| - 1]);
    if a != [] && b != [] {
      SameHashAgrees(d, a[|a| - 1], b[|b| - 1]);
      IntactFront(d, a);
      IntactFront(d, b);
    }
  }

  ghost predicate AgreeUpTo(d: Digest, a: seq<Row>, b: seq<Row>) {
    |a| == |b| && forall i :: 0 <= i < |a| ==> Agree(d, a[i], b[i])
  }

  lemma AgreementExtends(d: Digest, a: seq<Row>, b: seq<Row>)
    requires a != [] && b != [] && AgreeUpTo(d, a[..|a| - 1], b[..|b| - 1]) && Agree(d, a[|a| - 1], b[|b| - 1])
    ensures AgreeUpTo(d, a, b)
  {
    var fa, fb := a[..|a| - 1], b[..|b| - 1];
    forall i | 0 <= i < |a| ensures Agree(d, a[i], b[i]) {
      if i < |fa| { assert Agree(d, fa[i], fb[i]); }
    }
  }

  /** The head hash pins the whole history: its length and, row by row, every hashed field. */
  lemma {:induction false} HeadPinsHistory(d: Digest, a: seq<Row>, b: seq<Row>)
    requires CollisionFree(d) && Intact(d, a) && Intact(d, b) && Head(a) == Head(b)
    ensures AgreeUpTo(d, a, b)
    decreases |a|
  {
    LastRowsAgree(d, a, b);
    if a != [] {
      IntactFront(d, a);
      IntactFront(d, b);
      HeadPinsHistory(d, a[..|a| - 1], b[..|b| - 1]);
      AgreementExtends(d, a, b);
    }
  }

  lemma AgreementVerifies(d: Digest, a: seq<Row>, b: seq<Row>)
    requires Intact(d, a) && AgreeUpTo(d, a, b)
    ensures Intact(d, b) && Head(b) == Head(a)
  {
    forall i | 0 <= i < |b| ensures Linked(b, i) && Sealed(d, b[i]) {
      assert Agree(d, a[i], b[i]) && Linked(a, i) && Sealed(d, a[i]);
      assert i > 0 ==> Agree(d, a[i - 1], b[i - 1]);
    }
    assert a != [] ==> Agree(d, a[|a| - 1], b[|b| - 1]);
  }

  /** Exactly what a rewritten table may change and still verify under the recorded head hash. */
  lemma TamperEvidence(d: Digest, a: seq<Row>, b: seq<Row>)
    requires CollisionFree(d) && Intact(d, a)
    ensures (Intact(d, b) && Head(b) == Head(a))
            <==> AgreeUpTo(d, a, b)
  {
    hide Intact, AgreeUpTo, CollisionFree, Head;
    if Intact(d, b) && Head(b) == Head(a) {
      HeadPinsHistory(d, a, b);
    }
    if AgreeUpTo(d, a, b) {
      AgreementVerifies(d, a, b);
    }
  }

  /** What agreement of two fully sealed rows means, column by column: only an absent `redaction` may become `applied`. */
  lemma FullAgreementCoversEveryColumn(d: Digest, a: Row, b: Row)
    requires Agree(d, a, b) && a.hash == d(FullOf(a))
    ensures a.fields == b.fields && a.prevHash == b.prevHash && Or(a.redaction, "applied") == Or(b.redaction, "applied")
  {}

  /** What agreement of two rows sealed in the older way means: the nine columns that encoding had. */
  lemma LegacyAgreementCoversItsColumns(d: Digest, a: Row, b: Row)
    requires Agree(d, a, b) && a.hash != d(FullOf(a))
    ensures a.prevHash == b.prevHash && b.hash != d(FullOf(b))
    ensures var f, g := a.fields, b.fields;
            && f.at == g.at && f.tenantId == g.tenantId && f.actorId == g.actorId && f.jobId == g.jobId && f.kind == g.kind
            && f.event == g.event && f.status == g.status && f.resultJson == g.resultJson && f.dataJson == g.dataJson
  {}

  lemma SameRowSameEvent(d: Digest, rows: seq<Row>, a: Row, x: (nat, Fields, Option<string>),
                         others: seq<Row>, b: Row, y: (nat, Fields, Option<string>))
    requires Agree(d, a, b) && Holds(d, rows, a, x.0, x.1, x.2) && Holds(d, others, b, y.0, y.1, y.2)
    ensures x.1 == y.1 && Or(x.2, "applied") == Or(y.2, "applied")
  {
    FullAgreementCoversEveryColumn(d, a, b);
  }

  /**
  From the events on: two logs, both appended to from nothing, have the same head hash only if they record the same
  events, field by field and redaction included, in the same order.
  */
  lemma {:induction false} HeadDeterminesTheEvents(d: Digest, xs: seq<(nat, Fields, Option<string>)>, ys: seq<(nat, Fields, Option<string>)>)
    requires CollisionFree(d) && Head(AppendAll(d, [], xs)) == Head(AppendAll(d, [], ys))
    ensures |xs| == |ys|
    ensures forall i :: 0 <= i < |xs| ==> xs[i].1 == ys[i].1 && Or(xs[i].2, "applied") == Or(ys[i].2, "applied")
  {
    hide AppendAll, CollisionFree, Head, Agree, Holds, Or;
    var a, b := AppendAll(d, [], xs), AppendAll(d, [], ys);
    AppendedLogsVerify(d, [], xs);
    AppendedLogsVerify(d, [], ys);
    HeadPinsHistory(d, a, b);
    AppendedLogsHoldTheEvents(d, [], xs);
    AppendedLogsHoldTheEvents(d, [], ys);
    forall i | 0 <= i < |xs| ensures xs[i].1 == ys[i].1 && Or(xs[i].2, "applied") == Or(ys[i].2, "applied") {
      SameRowSameEvent(d, a[..0 + i], a[0 + i], xs[i], b[..0 + i], b[0 + i], ys[i]);
    }
  }
}
