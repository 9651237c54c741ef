/**
The audit outbox and the worker that drains it: delivery, retry with backoff, and dead letters.

Times are milliseconds; the table is in primary-key order; the connector is an arbitrary function from the
position of a record in the drain to what delivering it does.
*/
module AuditOutbox {
  import opened Wrappers
  import opened Powers
  import Text

  datatype Status = Pending | Delivered | Failed | DeadLetter

  datatype ErrorClass = ConnectorMissing | Auth | Throttle | Server | Client | Network | Timeout | Unknown

  /** An error's code, its HTTP status when it carries one in 100..599, and its message. */
  datatype Error = Error(code: string, status: Option<int>, message: string)

  datatype Delivery = Accepted | Refused(error: Error)

  datatype Entry = Entry(
    id: nat, auditId: int, sinkId: string, tenant: string, webhook: bool, status: Status, attempts: nat,
    nextAttemptAt: Option<int>, lastAttemptAt: Option<int>, lastError: Option<string>,
    lastErrorClass: Option<ErrorClass>, deadLetterAt: Option<int>)

  // ----- failure classes and backoff -----

  const NETWORK_CODES := {"ETIMEDOUT", "ECONNRESET", "ECONNREFUSED", "ENOTFOUND", "EAI_AGAIN", "EPIPE"}

  function Upper(s: string): string {
    seq(|s|, i requires 0 <= i < |s| => if 'a' <= s[i] <= 'z' then s[i] - 'a' + 'A' else s[i])
  }

  /** A failure that a later attempt may not meet again: any but a client error, of which three pass. */
  predicate Retryable(e: Error) {
    || e.code == "AUDIT_SINK_CONNECTOR_REQUIRED"
    || !(e.status.Some? && 400 <= e.status.value <= 499 && e.status.value !in {408, 425, 429})
  }

  function Classify(e: Error): (r: (ErrorClass, bool))
    ensures r.1 <==> Retryable(e)
    ensures r.0 == ConnectorMissing <==> e.code == "AUDIT_SINK_CONNECTOR_REQUIRED"
    ensures r.0 != ConnectorMissing && e.status.Some?
            ==> && (r.0 == Auth <==> e.status.value in {401, 403})
                && (r.0 == Throttle <==> e.status.value in {408, 425, 429})
                && (r.0 == Client <==> 400 <= e.status.value <= 499 && e.status.value !in {401, 403, 408, 425, 429})
                && (r.0 == Server <==> 500 <= e.status.value)
    ensures r.0 in {Network, Timeout, Unknown} <==> r.0 != ConnectorMissing && (e.status.Some? ==> e.status.value < 400)
    ensures r.0 in {Network, Timeout, Unknown}
            ==> && (r.0 == Network <==> Upper(e.code) in NETWORK_CODES)
                && (r.0 == Timeout <==> Upper(e.code) !in NETWORK_CODES && Text.Includes(Upper(e.message), "TIMEOUT"))
  {
    if e.code == "AUDIT_SINK_CONNECTOR_REQUIRED" then (ConnectorMissing, true)
    else if e.status.Some? && e.status.value in {401, 403} then (Auth, false)
    else if e.status.Some? && e.status.value in {408, 425, 429} then (Throttle, true)
    else if e.status.Some? && e.status.value >= 500 then (Server, true)
    else if e.status.Some? && e.status.value >= 400 then (Client, false)
    else if Upper(e.code) in NETWORK_CODES then (Network, true)
    else if Text.Includes(Upper(e.message), "TIMEOUT") then (Timeout, true)
    else (Unknown, true)
  }

  /** Numeric options; an absent or zero one means its default. */
  datatype Config = Config(maxAttempts: Option<int>, baseDelayMs: Option<int>, maxDelayMs: Option<int>)

  function Effective(o: Option<int>, default: int): int {
    if o.None? || o.value == 0 then default else o.value
  }

  function AtLeast(x: int, low: int): int { if x < low then low else x }

  function MaxAttempts(c: Config): int { AtLeast(Effective(c.maxAttempts, 5), 1) }
  function BaseDelay(c: Config): int { AtLeast(Effective(c.baseDelayMs, 30000), 1) }
  function MaxDelay(c: Config): int { AtLeast(Effective(c.maxDelayMs, 3600000), BaseDelay(c)) }

  function Exponent(attempts: int): nat {
    var n := if attempts < 1 then 0 else attempts - 1;
    if n > 12 then 12 else n
  }

  function Backoff(attempts: int, c: Config): int {
    var delay := BaseDelay(c) * Pow2(Exponent(attempts));
    if delay < MaxDelay(c) then delay else MaxDelay(c)
  }

  /** Five attempts, half a minute and an hour, unless other positive numbers are given; the maximum is never below the base. */
  lemma ConfigDefaults(c: Config)
    ensures MaxAttempts(c) >= 1 && 1 <= BaseDelay(c) <= MaxDelay(c)
    ensures c.maxAttempts in {None, Some(0)} ==> MaxAttempts(c) == 5
    ensures c.baseDelayMs in {None, Some(0)} ==> BaseDelay(c) == 30000
    ensures c.maxDelayMs in {None, Some(0)} && BaseDelay(c) <= 3600000 ==> MaxDelay(c) == 3600000
    ensures c.maxAttempts.Some? && c.maxAttempts.value >= 1 ==> MaxAttempts(c) == c.maxAttempts.value
    ensures c.baseDelayMs.Some? && c.baseDelayMs.value >= 1 ==> BaseDelay(c) == c.baseDelayMs.value
    ensures c.maxDelayMs.Some? && c.maxDelayMs.value >= BaseDelay(c) ==> MaxDelay(c) == c.maxDelayMs.value
  {}

  /** Later retries never come sooner, and every delay lies between the base and the maximum. */
  lemma BackoffIsMonotoneAndBounded(a: int, b: int, c: Config)
    requires a <= b
    ensures BaseDelay(c) <= Backoff(a, c) <= Backoff(b, c) <= MaxDelay(c)
  {
    Pow2Grows(Exponent(a), Exponent(b));
    ScaleGrows(BaseDelay(c), Pow2(Exponent(a)), Pow2(Exponent(b)));
  }

  /** The first retry waits the base delay, every later one twice the one before, up to the maximum and to the 13th. */
  lemma BackoffDoubles(attempts: int, c: Config)
    ensures attempts <= 1 ==> Backoff(attempts, c) == BaseDelay(c)
    ensures 1 <= attempts <= 12
            ==> Backoff(attempts + 1, c) == if 2 * Backoff(attempts, c) < MaxDelay(c) then 2 * Backoff(attempts, c) else MaxDelay(c)
    ensures attempts >= 13 ==> Backoff(attempts, c) == Backoff(13, c)
  {
    if 1 <= attempts <= 12 {
      ScaleDoubles(BaseDelay(c), attempts - 1);
      BackoffIsMonotoneAndBounded(attempts, attempts, c);
    }
  }

  // ----- one delivery -----

  /** The SET clause of the delivery mark; attempts always go up by one. */
  datatype Patch = Patch(
    status: Status, at: int, error: Option<string>, errorClass: Option<ErrorClass>, nextAttemptAt: Option<int>,
    deadLetterAt: Option<int>)

  function Apply(e: Entry, p: Patch): Entry {
    e.(status := p.status, attempts := e.attempts + 1, lastAttemptAt := Some(p.at), lastError := p.error,
       lastErrorClass := p.errorClass, nextAttemptAt := p.nextAttemptAt, deadLetterAt := p.deadLetterAt)
  }

  function Mark(table: seq<Entry>, auditId: int, sinkId: string, p: Patch): seq<Entry> {
    seq(|table|, i requires 0 <= i < |table| =>
      if table[i].auditId == auditId && table[i].sinkId == sinkId then Apply(table[i], p) else table[i])
  }

  function PatchFor(e: Entry, d: Delivery, c: Config, now: int): Patch {
    match d
    case Accepted => Patch(Delivered, now, None, None, None, None)
    case Refused(err) =>
      var terminal := !Classify(err).1 || e.attempts + 1 >= MaxAttempts(c);
      Patch(if terminal then DeadLetter else Failed, now, Some(err.message), Some(Classify(err).0),
            if terminal then None else Some(now + Backoff(e.attempts + 1, c)), if terminal then Some(now) else None)
  }

  datatype Kind = KDelivered | KFailed | KDeadLettered | KSkipped

  /** One record of the drain report. */
  datatype Item = Item(auditId: int, sinkId: string, status: Status, kind: Kind)

  function ItemFor(e: Entry, d: Delivery, c: Config, now: int): Item {
    if !e.webhook then Item(e.auditId, e.sinkId, e.status, KSkipped)
    else
      var p := PatchFor(e, d, c, now);
      Item(e.auditId, e.sinkId, p.status,
           match p.status case Delivered => KDelivered case DeadLetter => KDeadLettered case _ => KFailed)
  }

  // ----- a drain -----

  /** The arguments of one drain call. */
  datatype Call = Call(tenant: Option<string>, now: int, limit: Option<int>, connector: Option<nat -> Delivery>, config: Config)

  function Limit(c: Call): (n: nat)
    ensures 1 <= n <= 1000
    ensures c.limit.Some? && 1 <= c.limit.value <= 1000 ==> n == c.limit.value
    ensures c.limit.None? || c.limit.value <= 0 ==> n == 100
  {
    if c.limit.Some? && c.limit.value > 0 then (if c.limit.value > 1000 then 1000 else c.limit.value) else 100
  }

  const MISSING := Error("AUDIT_SINK_CONNECTOR_REQUIRED", None,
                         "audit outbox drain worker requires connector.deliverAuditOutbox(envelope)")

  function Deliver(c: Call, position: nat): Delivery {
    if c.connector.Some? then c.connector.value(position) else Refused(MISSING)
  }

  predicate Due(e: Entry, c: Call) {
    && e.status in {Pending, Failed} && (e.nextAttemptAt.Some? ==> e.nextAttemptAt.value <= c.now)
    && (c.tenant.Some? ==> e.tenant == c.tenant.value)
  }

  /** The first `n` due rows, in primary-key order. */
  function ListDue(table: seq<Entry>, c: Call, n: nat): (r: seq<Entry>)
    ensures |r| <= n
  {
    if table == [] || n == 0 then []
    else if Due(table[0], c) then [table[0]] + ListDue(table[1..], c, n - 1)
    else ListDue(table[1..], c, n)
  }

  function Handled(e: Entry, c: Call, position: nat): Entry {
    if e.webhook then Apply(e, PatchFor(e, Deliver(c, position), c.config, c.now)) else e
  }

  /** The table after the first `n` due rows were handled; `position` is that of the first of them. */
  function Drained(table: seq<Entry>, c: Call, position: nat, n: nat): (r: seq<Entry>)
    ensures |r| == |table|
  {
    if table == [] then []
    else if n > 0 && Due(table[0], c)
    then [Handled(table[0], c, position)] + Drained(table[1..], c, position + 1, n - 1)
    else [table[0]] + Drained(table[1..], c, position, n)
  }

  datatype Report = Report(
    ok: bool, checked: nat, delivered: nat, failed: nat, deadLettered: nat, skipped: nat, records: seq<Item>)

  function Count(items: seq<Item>, k: Kind): nat {
    if items == [] then 0 else Count(items[..|items| - 1], k) + if items[|items| - 1].kind == k then 1 else 0
  }

  lemma CountPush(items: seq<Item>, item: Item)
    ensures forall k :: Count(items + [item], k) == Count(items, k) + if item.kind == k then 1 else 0
  {
    assert (items + [item])[..|items|] == items;
  }

  /** The counters of a drain, and that nothing is counted twice or left out. */
  ghost predicate Tallied(items: seq<Item>, delivered: nat, failed: nat, deadLettered: nat, skipped: nat) {
    && delivered == Count(items, KDelivered) && failed == Count(items, KFailed)
    && deadLettered == Count(items, KDeadLettered) && skipped == Count(items, KSkipped)
    && delivered + failed + deadLettered + skipped == |items|
  }

  /** `UNIQUE (audit_id, sink_id)`. */
  predicate UniqueKeys(table: seq<Entry>) {
    forall i, j :: 0 <= i < j < |table| ==> table[i].auditId != table[j].auditId || table[i].sinkId != table[j].sinkId
  }

  lemma MarkKeepsKeys(table: seq<Entry>, auditId: int, sinkId: string, p: Patch)
    ensures var t := Mark(table, auditId, sinkId, p);
            && |t| == |table| && (UniqueKeys(table) ==> UniqueKeys(t))
            && forall i :: 0 <= i < |t| ==> t[i].auditId == table[i].auditId && t[i].sinkId == table[i].sinkId
  {}

  /**
  A mark by key touches one row: of the row with that key it changes the delivery columns and counts one attempt, and
  it leaves every other row, every key and what a row is for as they were.
  */
  lemma MarkTouchesOneRow(table: seq<Entry>, i: nat, p: Patch)
    requires UniqueKeys(table) && i < |table|
    ensures var t := Mark(table, table[i].auditId, table[i].sinkId, p);
            && |t| == |table| && UniqueKeys(t)
            && (forall j :: 0 <= j < |table| && j != i ==> t[j] == table[j])
            && t[i].attempts == table[i].attempts + 1 && t[i].status == p.status && t[i].lastAttemptAt == Some(p.at)
            && t[i].nextAttemptAt == p.nextAttemptAt && t[i].deadLetterAt == p.deadLetterAt
            && t[i].id == table[i].id && t[i].tenant == table[i].tenant && t[i].webhook == table[i].webhook
  {
    MarkKeepsKeys(table, table[i].auditId, table[i].sinkId, p);
  }

  // ----- what a delivery means for its row -----

  /** What the connector did with the record at a position, if there is a connector. */
  function Did(c: Call, position: nat): Option<Delivery> {
    if c.connector.Some? then Some(c.connector.value(position)) else None
  }

  /** Why the record was not delivered, if it was not. */
  function Refusal(d: Option<Delivery>): Option<Error> {
    match d
    case None => Some(MISSING)
    case Some(Accepted) => None
    case Some(Refused(e)) => Some(e)
  }

  /** `t` is row `r` after a delivery attempt that did `d`. */
  predicate Settles(r: Entry, t: Entry, d: Option<Delivery>, c: Call) {
    && (t.status == Delivered <==> d == Some(Accepted))
    && (t.status == DeadLetter <==>
          d != Some(Accepted) && (!Retryable(Refusal(d).value) || r.attempts + 1 >= MaxAttempts(c.config)))
    && t.status != Pending && t.attempts == r.attempts + 1 && t.lastAttemptAt == Some(c.now)
    && (if d == Some(Accepted) then t.lastError.None? && t.lastErrorClass.None?
        else t.lastError == Some(Refusal(d).value.message) && t.lastErrorClass == Some(Classify(Refusal(d).value).0))
    && t.nextAttemptAt == (if t.status == Failed then Some(c.now + Backoff(r.attempts + 1, c.config)) else None)
    && t.deadLetterAt == (if t.status == DeadLetter then Some(c.now) else None)
    && r == t.(status := r.status, attempts := r.attempts, lastAttemptAt := r.lastAttemptAt, lastError := r.lastError,
               lastErrorClass := r.lastErrorClass, nextAttemptAt := r.nextAttemptAt, deadLetterAt := r.deadLetterAt)
  }

  /** The record of the report tells what became of the row. */
  predicate Tells(item: Item, t: Entry) {
    && item.auditId == t.auditId && item.sinkId == t.sinkId && item.status == t.status
    && item.kind == (if !t.webhook then KSkipped
                     else match t.status case Delivered => KDelivered case DeadLetter => KDeadLettered case _ => KFailed)
  }

  lemma HandledSettles(r: Entry, c: Call, position: nat)
    ensures r.webhook ==> Settles(r, Handled(r, c, position), Did(c, position), c)
    ensures !r.webhook ==> Handled(r, c, position) == r
    ensures Tells(ItemFor(r, Deliver(c, position), c.config, c.now), Handled(r, c, position))
  {
    hide Classify, MaxAttempts, Backoff, Retryable;
  }

  /** The position of row `i` in a drain that gets that far: the number of due rows before it. */
  function Rank(table: seq<Entry>, c: Call, i: nat): nat
    requires i <= |table|
  {
    if i == 0 then 0 else (if Due(table[0], c) then 1 else 0) + Rank(table[1..], c, i - 1)
  }

  /** Row `i` may be sent now, and the drain gets to it. */
  predicate Reached(table: seq<Entry>, c: Call, n: nat, i: nat)
    requires i < |table|
  {
    && table[i].status in {Pending, Failed} && (table[i].nextAttemptAt.Some? ==> table[i].nextAttemptAt.value <= c.now)
    && (c.tenant.Some? ==> table[i].tenant == c.tenant.value) && Rank(table, c, i) < n
  }

  /** Row by row, the table after handling the first `n` due rows, and where these are listed. */
  lemma {:induction false} DrainedAt(table: seq<Entry>, c: Call, position: nat, n: nat, i: nat)
    requires i < |table|
    ensures var k := Rank(table, c, i);
            && Drained(table, c, position, n)[i]
               == (if Reached(table, c, n, i) then Handled(table[i], c, position + k) else table[i])
            && (Reached(table, c, n, i) ==> k < |ListDue(table, c, n)| && ListDue(table, c, n)[k] == table[i])
  {
    hide Handled;
    if i > 0 {
      var due := n > 0 && Due(table[0], c);
      DrainedAt(table[1..], c, if due then position + 1 else position, if due then n - 1 else n, i - 1);
    }
  }

  /**
  What a drain does to every row, in terms of the connector: the k-th due row ends delivered exactly when the connector
  accepts position k, dead-lettered exactly when it refuses and no retry is left or useful, and otherwise failed with
  that error and the next attempt one backoff away; no other row changes.
  */
  lemma DrainIsTheConnector(table: seq<Entry>, c: Call, i: nat)
    requires i < |table|
    ensures var t := Drained(table, c, 0, Limit(c))[i];
            if Reached(table, c, Limit(c), i) && table[i].webhook
            then Settles(table[i], t, Did(c, Rank(table, c, i)), c) else t == table[i]
  {
    DrainedAt(table, c, 0, Limit(c), i);
    HandledSettles(table[i], c, Rank(table, c, i));
    hide Handled, Drained, Settles;
  }

  /** And the report tells it: the record at a row's rank is about that row, as it is stored now. */
  lemma ReportTells(table: seq<Entry>, c: Call, items: seq<Item>)
    requires var due := ListDue(table, c, Limit(c));
             |items| == |due| && forall k :: 0 <= k < |due| ==> items[k] == ItemFor(due[k], Deliver(c, k), c.config, c.now)
    ensures forall i :: 0 <= i < |table| && Reached(table, c, Limit(c), i)
              ==> Rank(table, c, i) < |items| && Tells(items[Rank(table, c, i)], Drained(table, c, 0, Limit(c))[i])
  {
    forall i | 0 <= i < |table| && Reached(table, c, Limit(c), i)
      ensures Rank(table, c, i) < |items| && Tells(items[Rank(table, c, i)], Drained(table, c, 0, Limit(c))[i])
    {
      DrainedAt(table, c, 0, Limit(c), i);
      HandledSettles(table[i], c, Rank(table, c, i));
      hide Handled, Drained, Settles, Tells, ItemFor, Deliver, ListDue;
    }
  }

  class Outbox {
    var table: seq<Entry>

    constructor (table: seq<Entry>)
      ensures this.table == table
    {
      this.table := table;
    }

    method MarkDelivery(auditId: int, sinkId: string, p: Patch)
      modifies this
      ensures table == Mark(old(table), auditId, sinkId, p)
      ensures UniqueKeys(old(table)) ==> UniqueKeys(table)
    {
      MarkKeepsKeys(table, auditId, sinkId, p);
      table := seq(|table|, i requires 0 <= i < |table| reads this =>
        if table[i].auditId == auditId && table[i].sinkId == sinkId then Apply(table[i], p) else table[i]);
    }

    /** Deliver one listed record and mark its row. */
    method DeliverOne(rec: Entry, c: Call, position: nat) returns (item: Item)
      modifies this
      ensures item == ItemFor(rec, Deliver(c, position), c.config, c.now)
      ensures table == if rec.webhook
                       then Mark(old(table), rec.auditId, rec.sinkId, PatchFor(rec, Deliver(c, position), c.config, c.now))
                       else old(table)
      ensures rec.webhook ==> (item.kind == KDelivered <==> Did(c, position) == Some(Accepted))
      ensures UniqueKeys(old(table)) ==> forall i :: 0 <= i < |table| && old(table)[i] == rec ==>
                Tells(item, table[i]) && if rec.webhook then Settles(rec, table[i], Did(c, position), c) else table[i] == rec
    {
      HandledSettles(rec, c, position);
      if !rec.webhook { return Item(rec.auditId, rec.sinkId, rec.status, KSkipped); }
      var outcome := if c.connector.Some? then c.connector.value(position) else Refused(MISSING);
      if outcome.Accepted? {
        MarkDelivery(rec.auditId, rec.sinkId, Patch(Delivered, c.now, None, None, None, None));
        return Item(rec.auditId, rec.sinkId, Delivered, KDelivered);
      }
      var failure := Classify(outcome.error);
      var nextAttempts := rec.attempts + 1;
      var terminal := !failure.1 || nextAttempts >= MaxAttempts(c.config);
      var nextAttemptAt := if terminal then None else Some(c.now + Backoff(nextAttempts, c.config));
      MarkDelivery(rec.auditId, rec.sinkId,
        Patch(if terminal then DeadLetter else Failed, c.now, Some(outcome.error.message), Some(failure.0), nextAttemptAt,
              if terminal then Some(c.now) else None));
      item := Item(rec.auditId, rec.sinkId, if terminal then DeadLetter else Failed,
                   if terminal then KDeadLettered else KFailed);
    }

    /** List what is due, then handle it record by record, each by its key. */
    method Drain(c: Call) returns (out: Report)
      requires UniqueKeys(table)
      modifies this
      ensures table == Drained(old(table), c, 0, Limit(c))
      ensures var due := ListDue(old(table), c, Limit(c));
              && out.checked == |out.records| == |due|
              && (forall i :: 0 <= i < |due| ==> out.records[i] == ItemFor(due[i], Deliver(c, i), c.config, c.now))
      ensures Tallied(out.records, out.delivered, out.failed, out.deadLettered, out.skipped)
      ensures forall i :: 0 <= i < |table| && Reached(old(table), c, Limit(c), i)
                ==> Rank(old(table), c, i) < |out.records| && Tells(out.records[Rank(old(table), c, i)], table[i])
      ensures out.ok <==> out.deadLettered == 0
    {
      hide Drained, ListDue, Mark, PatchFor, ItemFor, Deliver, Due, UniqueKeys, Reached, Rank, Tells;
      var rows := ListDue(table, c, Limit(c));
      var items: seq<Item> := [];
      var delivered, failed, deadLettered, skipped := 0, 0, 0, 0;
      ghost var start := table;
      DrainedNothing(start, c, 0);
      for i := 0 to |rows|
        invariant table == Drained(start, c, 0, i)
        invariant |items| == i && forall j :: 0 <= j < i ==> items[j] == ItemFor(rows[j], Deliver(c, j), c.config, c.now)
        invariant Tallied(items, delivered, failed, deadLettered, skipped)
      {
        NextRecord(start, c, i);
        var item := DeliverOne(rows[i], c, i);
        match item.kind {
          case KDelivered => delivered := delivered + 1;
          case KDeadLettered => deadLettered := deadLettered + 1;
          case KFailed => failed := failed + 1;
          case KSkipped => skipped := skipped + 1;
        }
        CountPush(items, item);
        items := items + [item];
      }
      DrainedAll(start, c, 0, |rows|, Limit(c));
      ReportTells(start, c, items);
      out := Report(deadLettered == 0, |rows|, delivered, failed, deadLettered, skipped, items);
    }
  }

  // ----- the loop is the left-to-right pass -----

  lemma {:induction false} DrainedNothing(table: seq<Entry>, c: Call, position: nat)
    ensures Drained(table, c, position, 0) == table
  {
    if table != [] { DrainedNothing(table[1..], c, position); }
  }

  lemma {:induction false} ListPrefix(table: seq<Entry>, c: Call, m: nat, n: nat)
    requires m <= n
    ensures ListDue(table, c, m) <= ListDue(table, c, n)
    ensures m <= |ListDue(table, c, n)| ==> |ListDue(table, c, m)| == m
  {
    if table != [] && m > 0 {
      ListPrefix(table[1..], c, if Due(table[0], c) then m - 1 else m, if Due(table[0], c) then n - 1 else n);
    }
  }

  /** Handling one more due row is marking, by its key, the row that is listed next. */
  lemma {:induction false} DrainedOneMore(table: seq<Entry>, c: Call, position: nat, i: nat, rec: Entry)
    requires UniqueKeys(table) && |ListDue(table, c, i + 1)| == i + 1 && rec == ListDue(table, c, i + 1)[i]
    ensures Drained(table, c, position, i + 1) == MarkedOne(Drained(table, c, position, i), rec, c, position + i)
  {
    var rest := table[1..];
    hide *;
    if Due(table[0], c) && i == 0 {
      DrainedHead(table, c, position);
      HeadIsListed(table, c);
    } else {
      var due := Due(table[0], c);
      var p, k := if due then position + 1 else position, if due then i - 1 else i;
      var head := if due then Handled(table[0], c, position) else table[0];
      DrainedTail(table, c, position, i, head, p, k);
      UniqueRest(table);
      DrainedOneMore(rest, c, p, k, rec);
      ListedIsRow(rest, c, k + 1, rec);
      OtherKeys(table, rec);
      if due { HandledKeepsKey(table[0], c, position); }
      MarkSkipsHead(head, Drained(rest, c, p, k), rec, c, p + k);
    }
  }

  /** The table with the delivery of one listed record marked; a record without a webhook is skipped. */
  function MarkedOne(table: seq<Entry>, rec: Entry, c: Call, position: nat): seq<Entry> {
    if rec.webhook then Mark(table, rec.auditId, rec.sinkId, PatchFor(rec, Deliver(c, position), c.config, c.now)) else table
  }

  lemma {:induction false} ListedIsRow(table: seq<Entry>, c: Call, n: nat, rec: Entry)
    requires rec in ListDue(table, c, n)
    ensures rec in table
  {
    hide Due;
    if table != [] && n > 0 {
      var rest := table[1..];
      if rec != table[0] { ListedIsRow(rest, c, if Due(table[0], c) then n - 1 else n, rec); }
      assert table == [table[0]] + rest;
    }
  }

  lemma HeadIsListed(table: seq<Entry>, c: Call)
    requires table != [] && Due(table[0], c)
    ensures |ListDue(table, c, 1)| == 1 && ListDue(table, c, 1)[0] == table[0]
  {
    hide Due;
  }

  lemma HandledKeepsKey(e: Entry, c: Call, position: nat)
    ensures var h := Handled(e, c, position); h.auditId == e.auditId && h.sinkId == e.sinkId
  {}

  /** Behind a head row that is not the next to be handled. */
  lemma DrainedTail(table: seq<Entry>, c: Call, position: nat, i: nat, head: Entry, p: nat, k: nat)
    requires |ListDue(table, c, i + 1)| == i + 1 && !(Due(table[0], c) && i == 0)
    requires head == (if Due(table[0], c) then Handled(table[0], c, position) else table[0])
    requires p == (if Due(table[0], c) then position + 1 else position)
    requires k == (if Due(table[0], c) then i - 1 else i)
    ensures Drained(table, c, position, i) == [head] + Drained(table[1..], c, p, k)
    ensures Drained(table, c, position, i + 1) == [head] + Drained(table[1..], c, p, k + 1)
    ensures |ListDue(table[1..], c, k + 1)| == k + 1 && ListDue(table, c, i + 1)[i] == ListDue(table[1..], c, k + 1)[k]
    ensures position + i == p + k
  {
    hide Handled, Due;
  }

  lemma MarkSkipsHead(head: Entry, t: seq<Entry>, rec: Entry, c: Call, position: nat)
    requires head.auditId != rec.auditId || head.sinkId != rec.sinkId
    ensures MarkedOne([head] + t, rec, c, position) == [head] + MarkedOne(t, rec, c, position)
  {
    hide PatchFor, Deliver, Apply;
  }

  lemma UniqueRest(table: seq<Entry>)
    requires table != [] && UniqueKeys(table)
    ensures UniqueKeys(table[1..])
  {}

  lemma OtherKeys(table: seq<Entry>, rec: Entry)
    requires table != [] && UniqueKeys(table) && rec in table[1..]
    ensures table[0].auditId != rec.auditId || table[0].sinkId != rec.sinkId
  {
    var j :| 0 <= j < |table[1..]| && table[1..][j] == rec;
    assert table[j + 1] == rec;
  }

  /** Handling the head row alone is marking it by its key. */
  lemma DrainedHead(table: seq<Entry>, c: Call, position: nat)
    requires table != [] && UniqueKeys(table) && Due(table[0], c)
    ensures Drained(table, c, position, 0) == table
    ensures Drained(table, c, position, 1) == MarkedOne(table, table[0], c, position)
  {
    DrainedNothing(table[1..], c, position + 1);
    DrainedNothing(table, c, position);
    hide PatchFor, Deliver, Apply, Due;
  }

  /** One loop iteration of a drain. */
  lemma NextRecord(table: seq<Entry>, c: Call, i: nat)
    requires UniqueKeys(table) && i < |ListDue(table, c, Limit(c))|
    ensures Drained(table, c, 0, i + 1) == MarkedOne(Drained(table, c, 0, i), ListDue(table, c, Limit(c))[i], c, i)
  {
    hide *;
    ListPrefix(table, c, i + 1, Limit(c));
    DrainedOneMore(table, c, 0, i, ListDue(table, c, i + 1)[i]);
  }

  /** Once every listed row is handled, a larger limit changes nothing. */
  lemma {:induction false} DrainedAll(table: seq<Entry>, c: Call, position: nat, m: nat, n: nat)
    requires m == |ListDue(table, c, n)|
    ensures Drained(table, c, position, m) == Drained(table, c, position, n)
  {
    if table != [] {
      if n > 0 && Due(table[0], c) {
        DrainedAll(table[1..], c, position + 1, m - 1, n - 1);
      } else if n > 0 {
        DrainedAll(table[1..], c, position, m, n);
      }
    }
  }

  // ----- what drains guarantee -----

  /** Every row, before and after a drain. Settled rows are never touched; retries obey the limit and the backoff. */
  lemma {:induction false} DrainRowByRow(table: seq<Entry>, c: Call, position: nat, n: nat, i: nat)
    requires i < |table|
    ensures var r, t := table[i], Drained(table, c, position, n)[i];
            && (!Due(r, c) || !r.webhook ==> t == r)
            && (r.status in {Delivered, DeadLetter} ==> t == r)
            && (t != r ==>
                  && t.attempts == r.attempts + 1 && t.lastAttemptAt == Some(c.now) && t.status != Pending
                  && (t.status == Failed ==> t.attempts < MaxAttempts(c.config)
                                             && t.nextAttemptAt == Some(c.now + Backoff(t.attempts, c.config)))
                  && (t.status == DeadLetter <==> t.deadLetterAt.Some?))
  {
    if i > 0 {
      var m := if n > 0 && Due(table[0], c) then n - 1 else n;
      var p := if n > 0 && Due(table[0], c) then position + 1 else position;
      DrainRowByRow(table[1..], c, p, m, i - 1);
    }
  }

  function Left(e: Entry, m: int): int {
    if e.status in {Pending, Failed} then AtLeast(m - e.attempts, 1) else 0
  }

  /** Deliveries still possible: the sum over open rows of max(1, m - attempts). */
  function Fuel(table: seq<Entry>, m: int): int {
    if table == [] then 0 else Left(table[0], m) + Fuel(table[1..], m)
  }

  function Webhooks(rows: seq<Entry>): nat {
    if rows == [] then 0 else (if rows[0].webhook then 1 else 0) + Webhooks(rows[1..])
  }

  /** A drain uses up at least one unit for every webhook row it handles, and changes nothing if there is none. */
  lemma {:induction false} DrainBurnsFuel(table: seq<Entry>, c: Call, position: nat, n: nat)
    ensures var m := MaxAttempts(c.config);
            && 0 <= Fuel(Drained(table, c, position, n), m)
            && Fuel(Drained(table, c, position, n), m) + Webhooks(ListDue(table, c, n)) <= Fuel(table, m)
    ensures Webhooks(ListDue(table, c, n)) == 0 ==> Drained(table, c, position, n) == table
  {
    if table != [] {
      if n > 0 && Due(table[0], c) {
        DrainBurnsFuel(table[1..], c, position + 1, n - 1);
        assert ListDue(table, c, n)[1..] == ListDue(table[1..], c, n - 1);
      } else {
        DrainBurnsFuel(table[1..], c, position, n);
        if n == 0 { DrainedNothing(table, c, position); }
      }
      var t := Drained(table, c, position, n);
      assert t[1..] == (if n > 0 && Due(table[0], c) then Drained(table[1..], c, position + 1, n - 1)
                        else Drained(table[1..], c, position, n));
      assert [table[0]] + table[1..] == table;
    }
  }

  /** The measure strictly decreases exactly when a webhook row was due within the limit. */
  lemma DrainMakesProgressIff(table: seq<Entry>, c: Call)
    ensures var m := MaxAttempts(c.config);
            Fuel(Drained(table, c, 0, Limit(c)), m) < Fuel(table, m) <==> Webhooks(ListDue(table, c, Limit(c))) > 0
  {
    DrainBurnsFuel(table, c, 0, Limit(c));
  }

  function AfterDrains(table: seq<Entry>, calls: seq<Call>): seq<Entry>
    decreases |calls|
  {
    if calls == [] then table else AfterDrains(Drained(table, calls[0], 0, Limit(calls[0])), calls[1..])
  }

  /** A row that is delivered or dead-lettered stays so through all later drains. */
  lemma {:induction false} SettledForever(table: seq<Entry>, calls: seq<Call>, i: nat)
    requires i < |table| && table[i].status in {Delivered, DeadLetter}
    ensures |AfterDrains(table, calls)| == |table| && AfterDrains(table, calls)[i] == table[i]
    decreases |calls|
  {
    if calls != [] {
      DrainRowByRow(table, calls[0], 0, Limit(calls[0]), i);
      SettledForever(Drained(table, calls[0], 0, Limit(calls[0])), calls[1..], i);
    }
  }

  /** Whatever happens later, an event is recorded as delivered for good once the connector has accepted it. */
  lemma AcceptedForever(table: seq<Entry>, c: Call, calls: seq<Call>, i: nat)
    requires i < |table| && Reached(table, c, Limit(c), i) && table[i].webhook
    requires Did(c, Rank(table, c, i)) == Some(Accepted)
    ensures |AfterDrains(table, [c] + calls)| == |table| && AfterDrains(table, [c] + calls)[i].status == Delivered
  {
    DrainIsTheConnector(table, c, i);
    assert ([c] + calls)[1..] == calls;
    hide Reached, Rank, Drained;
    SettledForever(Drained(table, c, 0, Limit(c)), calls, i);
  }

  /** The number of drains in a run that found a webhook row due. */
  function Busy(table: seq<Entry>, calls: seq<Call>): nat
    decreases |calls|
  {
    if calls == [] then 0
    else
      (if Webhooks(ListDue(table, calls[0], Limit(calls[0]))) > 0 then 1 else 0)
      + Busy(Drained(table, calls[0], 0, Limit(calls[0])), calls[1..])
  }

  /** Retrying ends: whatever the connector does and whenever drains run, only so many find anything to deliver. */
  lemma {:induction false} RetriesAreBounded(table: seq<Entry>, calls: seq<Call>, m: int)
    requires forall c <- calls :: MaxAttempts(c.config) == m
    ensures Busy(table, calls) + Fuel(AfterDrains(table, calls), m) <= Fuel(table, m)
    decreases |calls|
  {
    if calls != [] {
      assert calls[0] in calls && forall c <- calls[1..] :: c in calls;
      DrainBurnsFuel(table, calls[0], 0, Limit(calls[0]));
      RetriesAreBounded(Drained(table, calls[0], 0, Limit(calls[0])), calls[1..], m);
    }
  }
}
