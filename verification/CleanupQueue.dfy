/**
The cleanup queue of the remote-browser sessions: a retrying, resumable plan whose own hash locks out a second run
while one is waiting for the file system.
*/
module CleanupQueue {
  import opened Wrappers
  import Text

  // ----- plans -----

  datatype Status = Pending | Failed | Complete

  datatype Target = Target(
    kind: string, path: string, relativePath: string,
    done: bool, attempts: nat, completedAt: Option<int>, lastError: string)

  datatype Failure = Failure(kind: string, error: string)

  /** The hashed contents of a plan. The plan's last error is kept as the list of failures its text is made of. */
  datatype Body = Body(
    sessionId: string, status: Status, startedAt: Option<int>, completedAt: Option<int>,
    attempts: nat, maxAttempts: int, lastError: seq<Failure>, targets: seq<Target>)

  /** SHA-256 over the canonical text, taken to be collision-free. */
  datatype Hash = HashOf(body: Body)

  datatype Plan = Plan(body: Body, planHash: Hash)

  function Finalized(b: Body): Plan { Plan(b, HashOf(b)) }

  predicate Given(s: string) { Text.Trim(s) != "" }

  predicate WellMade(b: Body) {
    && Given(b.sessionId) && b.targets != []
    && forall k :: 0 <= k < |b.targets| ==>
         Given(b.targets[k].kind) && Given(b.targets[k].path) && Given(b.targets[k].relativePath)
  }

  /** The validation in front of every run. */
  predicate Accepted(p: Plan) { p.planHash == HashOf(p.body) && WellMade(p.body) }

  predicate AllDone(ts: seq<Target>) { forall k :: 0 <= k < |ts| ==> ts[k].done }

  // ----- a run, with its waits -----

  /** A run that waits for the removal of one target. */
  datatype Flight = Flight(target: nat, now: int, failed: seq<Failure>)

  /** `removed` records, for the reader, every successful removal by target position. */
  datatype State = State(plan: Plan, flight: Option<Flight>, removed: seq<nat>)

  datatype Event = RunCalled(now: int) | Removed | RemoveFailed(error: string)

  function CleanError(error: string): string { if Given(error) then Text.Trim(error) else "cleanup failed" }

  function Begun(b: Body, now: int): Body {
    b.(startedAt := if b.startedAt.Some? then b.startedAt else Some(now), attempts := b.attempts + 1)
  }

  function Attempted(b: Body, k: nat): Body
    requires k < |b.targets|
  {
    b.(targets := b.targets[k := b.targets[k].(attempts := b.targets[k].attempts + 1)])
  }

  function Settled(b: Body, k: nat, now: int, error: Option<string>): Body
    requires k < |b.targets|
  {
    var t := b.targets[k];
    b.(targets := b.targets[k := if error.Some? then t.(lastError := CleanError(error.value))
                                 else t.(done := true, completedAt := Some(now), lastError := "")])
  }

  function FailuresAfter(failed: seq<Failure>, t: Target, error: Option<string>): seq<Failure> {
    if error.Some? then failed + [Failure(t.kind, CleanError(error.value))] else failed
  }

  function Ended(b: Body, now: int, failed: seq<Failure>): Body {
    if failed != [] then b.(status := Failed, completedAt := None, lastError := failed)
    else b.(status := Complete, completedAt := Some(now), lastError := [])
  }

  /** The next target from `k` on that is not done, or the number of targets. */
  function NextUndone(ts: seq<Target>, k: nat): (n: nat)
    requires k <= |ts|
    ensures k <= n <= |ts|
    ensures forall j :: k <= j < n ==> ts[j].done
    ensures n < |ts| ==> !ts[n].done
    decreases |ts| - k
  {
    if k == |ts| || !ts[k].done then k else NextUndone(ts, k + 1)
  }

  /** A run goes on from target `k`: it waits for the next removal, or ends and hashes the plan again. */
  function Resume(st: State, b: Body, k: nat, now: int, failed: seq<Failure>): State
    requires k <= |b.targets|
  {
    var n := NextUndone(b.targets, k);
    if n == |b.targets| then st.(plan := Finalized(Ended(b, now, failed)), flight := None)
    else st.(plan := Plan(Attempted(b, n), st.plan.planHash), flight := Some(Flight(n, now, failed)))
  }

  /** What a call to run the plan, or the settling of the awaited removal, does. */
  function Step(st: State, e: Event): State {
    var b := st.plan.body;
    if e.RunCalled? then
      if !Accepted(st.plan) || b.status == Complete then st else Resume(st, Begun(b, e.now), 0, e.now, [])
    else if st.flight.None? || st.flight.value.target >= |b.targets| then st
    else Landed(st, st.flight.value, if e.RemoveFailed? then Some(e.error) else None)
  }

  /** The awaited removal settles, and the run goes on behind it. */
  function Landed(st: State, f: Flight, error: Option<string>): State
    requires f.target < |st.plan.body.targets|
  {
    var b := st.plan.body;
    Resume(st.(removed := if error.None? then st.removed + [f.target] else st.removed),
           Settled(b, f.target, f.now, error), f.target + 1, f.now, FailuresAfter(f.failed, b.targets[f.target], error))
  }

  /** A plan as it is created. */
  predicate Fresh(b: Body) {
    && WellMade(b) && b.status == Pending && b.attempts == 0
    && forall k :: 0 <= k < |b.targets| ==> !b.targets[k].done && b.targets[k].attempts == 0
  }

  function Run(b: Body, events: seq<Event>): State {
    if events == [] then State(Finalized(b), None, []) else Step(Run(b, events[..|events| - 1]), events[|events| - 1])
  }

  // ----- what every interleaving keeps -----

  predicate Distinct(s: seq<nat>) { forall i, j :: 0 <= i < j < |s| ==> s[i] != s[j] }

  /** Failures and undone targets before position `k` go together. */
  predicate FailuresShow(ts: seq<Target>, k: nat, failed: seq<Failure>) {
    k <= |ts| && (failed == [] <==> forall j :: 0 <= j < k ==> ts[j].done)
  }

  predicate RemovalsShow(ts: seq<Target>, removed: seq<nat>) {
    && Distinct(removed)
    && (forall i :: 0 <= i < |removed| ==> removed[i] < |ts| && ts[removed[i]].done)
    && (forall k :: 0 <= k < |ts| && ts[k].done ==> k in removed)
  }

  predicate AttemptsBounded(ts: seq<Target>, attempts: nat) {
    forall k :: 0 <= k < |ts| ==> ts[k].attempts <= attempts
  }

  /** The run has not reached the targets from `k` on. */
  predicate Ahead(ts: seq<Target>, k: nat, attempts: nat) {
    forall j :: k <= j < |ts| ==> ts[j].attempts < attempts
  }

  predicate InFlight(b: Body, f: Flight, lock: Hash) {
    && lock.body.attempts < b.attempts && b.status != Complete
    && f.target < |b.targets| && !b.targets[f.target].done
    && FailuresShow(b.targets, f.target, f.failed) && Ahead(b.targets, f.target + 1, b.attempts)
  }

  predicate AtRest(p: Plan) {
    p.planHash == HashOf(p.body) && (p.body.status == Complete <==> AllDone(p.body.targets))
  }

  predicate Inv(st: State) {
    var b := st.plan.body;
    && WellMade(b) && RemovalsShow(b.targets, st.removed) && AttemptsBounded(b.targets, b.attempts)
    && (if st.flight.None? then AtRest(st.plan) else InFlight(b, st.flight.value, st.plan.planHash))
  }

  lemma EndKeeps(b: Body, now: int, failed: seq<Failure>)
    requires FailuresShow(b.targets, |b.targets|, failed)
    ensures AtRest(Finalized(Ended(b, now, failed)))
  {}

  lemma AttemptKeeps(b: Body, n: nat, f: Flight, lock: Hash)
    requires WellMade(b) && n < |b.targets| && !b.targets[n].done && f.target == n
    requires AttemptsBounded(b.targets, b.attempts) && Ahead(b.targets, n, b.attempts)
    requires lock.body.attempts < b.attempts && b.status != Complete && FailuresShow(b.targets, n, f.failed)
    ensures var after := Attempted(b, n);
            WellMade(after) && AttemptsBounded(after.targets, after.attempts) && InFlight(after, f, lock)
  {
    hide Given;
    var ts := Attempted(b, n).targets;
    assert forall j :: 0 <= j < |ts| && j != n ==> ts[j] == b.targets[j];
    assert ts[n] == b.targets[n].(attempts := b.targets[n].attempts + 1);
  }

  lemma SameDone(ts: seq<Target>, us: seq<Target>, removed: seq<nat>)
    requires |ts| == |us| && forall j :: 0 <= j < |ts| ==> ts[j].done == us[j].done
    requires RemovalsShow(ts, removed)
    ensures RemovalsShow(us, removed)
  {}

  /** What `ResumeKeeps` asks for. */
  predicate Ready(b: Body, k: nat, failed: seq<Failure>, removed: seq<nat>, lock: Hash) {
    && k <= |b.targets| && WellMade(b) && RemovalsShow(b.targets, removed)
    && lock.body.attempts < b.attempts && b.status != Complete && FailuresShow(b.targets, k, failed)
    && AttemptsBounded(b.targets, b.attempts) && Ahead(b.targets, k, b.attempts)
  }

  lemma ResumeKeeps(st: State, b: Body, k: nat, now: int, failed: seq<Failure>)
    requires Ready(b, k, failed, st.removed, st.plan.planHash)
    ensures Inv(Resume(st, b, k, now, failed))
  {
    var n := NextUndone(b.targets, k);
    assert FailuresShow(b.targets, n, failed);
    if n == |b.targets| {
      EndKeeps(b, now, failed);
    } else {
      AttemptKeeps(b, n, Flight(n, now, failed), st.plan.planHash);
      SameDone(b.targets, Attempted(b, n).targets, st.removed);
    }
  }

  lemma FlightIsLocked(st: State)
    requires Inv(st)
    ensures st.flight.Some? ==> st.plan.planHash != HashOf(st.plan.body)
  {}

  lemma BeginKeeps(st: State, now: int)
    requires Inv(st) && Accepted(st.plan) && st.plan.body.status != Complete
    ensures Inv(Step(st, RunCalled(now)))
  {
    FlightIsLocked(st);
    ResumeKeeps(st, Begun(st.plan.body, now), 0, now, []);
  }

  lemma SettledFrame(b: Body, k: nat, now: int, error: Option<string>)
    requires k < |b.targets|
    ensures var after := Settled(b, k, now, error);
            && after.attempts == b.attempts && after.status == b.status && |after.targets| == |b.targets|
            && (forall j :: 0 <= j < |b.targets| && j != k ==> after.targets[j] == b.targets[j])
            && after.targets[k].attempts == b.targets[k].attempts
            && (after.targets[k].done <==> b.targets[k].done || error.None?)
            && (WellMade(b) ==> WellMade(after))
  {}

  /** Marking one more target done goes with recording its removal. */
  lemma RemovalShows(ts: seq<Target>, us: seq<Target>, k: nat, removed: seq<nat>)
    requires |us| == |ts| && k < |ts| && !ts[k].done && us[k].done
    requires forall j :: 0 <= j < |ts| && j != k ==> us[j] == ts[j]
    requires RemovalsShow(ts, removed)
    ensures RemovalsShow(us, removed + [k])
  {
    var more := removed + [k];
    assert k !in removed;
    assert more[|removed|] == k;
    forall j | 0 <= j < |us| && us[j].done ensures j in more {
      if j != k { assert ts[j].done; }
    }
  }

  lemma FailureShows(ts: seq<Target>, us: seq<Target>, k: nat, failed: seq<Failure>, error: Option<string>)
    requires |us| == |ts| && k < |ts| && (us[k].done <==> error.None?)
    requires forall j :: 0 <= j < |ts| && j != k ==> us[j] == ts[j]
    requires FailuresShow(ts, k, failed)
    ensures FailuresShow(us, k + 1, FailuresAfter(failed, ts[k], error))
  {
    assert forall j :: 0 <= j < k ==> us[j].done == ts[j].done;
  }

  lemma SettledKeeps(b: Body, f: Flight, error: Option<string>, removed: seq<nat>)
    requires WellMade(b) && f.target < |b.targets| && !b.targets[f.target].done
    requires RemovalsShow(b.targets, removed) && AttemptsBounded(b.targets, b.attempts)
    requires FailuresShow(b.targets, f.target, f.failed)
    ensures var after := Settled(b, f.target, f.now, error);
            && WellMade(after) && AttemptsBounded(after.targets, b.attempts)
            && RemovalsShow(after.targets, if error.None? then removed + [f.target] else removed)
            && FailuresShow(after.targets, f.target + 1, FailuresAfter(f.failed, b.targets[f.target], error))
  {
    hide Settled, WellMade, FailuresAfter, FailuresShow, RemovalsShow;
    SettledFrame(b, f.target, f.now, error);
    var ts := Settled(b, f.target, f.now, error).targets;
    FailureShows(b.targets, ts, f.target, f.failed, error);
    if error.None? { RemovalShows(b.targets, ts, f.target, removed); } else { SameDone(b.targets, ts, removed); }
  }

  lemma LandingIsReady(b: Body, f: Flight, error: Option<string>, removed: seq<nat>, lock: Hash)
    requires WellMade(b) && RemovalsShow(b.targets, removed) && AttemptsBounded(b.targets, b.attempts)
    requires InFlight(b, f, lock)
    ensures Ready(Settled(b, f.target, f.now, error), f.target + 1, FailuresAfter(f.failed, b.targets[f.target], error),
                  if error.None? then removed + [f.target] else removed, lock)
  {
    SettledKeeps(b, f, error, removed);
    SettledFrame(b, f.target, f.now, error);
    var after := Settled(b, f.target, f.now, error);
    AheadStays(b.targets, after.targets, f.target, b.attempts);
    hide WellMade, RemovalsShow, FailuresShow, AttemptsBounded, Ahead, Settled, FailuresAfter;
  }

  lemma LandingKeeps(st: State, f: Flight, error: Option<string>)
    requires Inv(st) && st.flight == Some(f)
    ensures Inv(Landed(st, f, error))
  {
    var b := st.plan.body;
    hide WellMade, RemovalsShow, FailuresShow, AttemptsBounded, Ahead, Settled, FailuresAfter, Resume;
    LandingIsReady(b, f, error, st.removed, st.plan.planHash);
    ResumeKeeps(st.(removed := if error.None? then st.removed + [f.target] else st.removed),
                Settled(b, f.target, f.now, error), f.target + 1, f.now,
                FailuresAfter(f.failed, b.targets[f.target], error));
  }

  lemma AheadStays(ts: seq<Target>, us: seq<Target>, k: nat, attempts: nat)
    requires |us| == |ts| && k < |ts| && Ahead(ts, k + 1, attempts)
    requires forall j :: 0 <= j < |ts| && j != k ==> us[j] == ts[j]
    ensures Ahead(us, k + 1, attempts)
  {}

  lemma StepKeeps(st: State, e: Event)
    requires Inv(st)
    ensures Inv(Step(st, e))
  {
    if e.RunCalled? {
      if Accepted(st.plan) && st.plan.body.status != Complete { BeginKeeps(st, e.now); }
    } else if st.flight.Some? && st.flight.value.target < |st.plan.body.targets| {
      LandingKeeps(st, st.flight.value, if e.RemoveFailed? then Some(e.error) else None);
    }
  }

  lemma {:induction false} Reachable(b: Body, events: seq<Event>)
    requires Fresh(b)
    ensures Inv(Run(b, events))
  {
    if events == [] {
      assert !b.targets[0].done;
    } else {
      Reachable(b, events[..|events| - 1]);
      StepKeeps(Run(b, events[..|events| - 1]), events[|events| - 1]);
    }
  }

  /**
  In every interleaving of run calls and settling removals: no target is removed twice, a target is done exactly
  when it was removed, and between runs the hash is valid and the plan is complete exactly when all targets are done.
  */
  lemma NothingIsRemovedTwice(b: Body, events: seq<Event>)
    requires Fresh(b)
    ensures var st := Run(b, events);
            && Distinct(st.removed)
            && (forall k: nat :: k < |st.plan.body.targets| ==> (st.plan.body.targets[k].done <==> k in st.removed))
            && (st.flight.None? ==> Accepted(st.plan)
                                    && (st.plan.body.status == Complete <==> AllDone(st.plan.body.targets)))
  {
    Reachable(b, events);
  }

  /** While a run waits, a second call is refused, and only because the attempt count has broken the hash. */
  lemma OverlapIsRefused(b: Body, events: seq<Event>, now: int)
    requires Fresh(b) && Run(b, events).flight.Some?
    ensures var st := Run(b, events);
            && st.plan.planHash != HashOf(st.plan.body) && WellMade(st.plan.body)
            && Step(st, RunCalled(now)) == st
  {
    Reachable(b, events);
  }

  /** The lock is really taken: the first run of a fresh plan waits for its first target. */
  lemma FirstRunWaits(b: Body, now: int)
    requires Fresh(b)
    ensures var st := Run(b, [RunCalled(now)]);
            st.flight.Some? && st.flight.value.target == 0 && st.plan.body.attempts == 1
  {
    assert [RunCalled(now)][..0] == [];
    assert Run(b, []) == State(Finalized(b), None, []);
    assert !b.targets[0].done;
  }

  // ----- a run alone -----

  /** The rest of a run from target `k`, when nothing overlaps it; `errors` says which removals fail. */
  function Finishing(b: Body, k: nat, now: int, failed: seq<Failure>, errors: nat -> Option<string>): (r: Body)
    requires k <= |b.targets|
    decreases |b.targets| - k
  {
    if k == |b.targets| then Ended(b, now, failed)
    else if b.targets[k].done then Finishing(b, k + 1, now, failed, errors)
    else
      Finishing(Settled(Attempted(b, k), k, now, errors(k)), k + 1, now,
                FailuresAfter(failed, b.targets[k], errors(k)), errors)
  }

  function RunAlone(p: Plan, now: int, errors: nat -> Option<string>): Plan {
    if !Accepted(p) || p.body.status == Complete then p
    else Finalized(Finishing(Begun(p.body, now), 0, now, [], errors))
  }

  /** The waiting run brought to its end: each awaited removal settles as `errors` says. */
  function Land(st: State, errors: nat -> Option<string>): State
    decreases if st.flight.Some? then |st.plan.body.targets| - st.flight.value.target else 0
  {
    if st.flight.None? || st.flight.value.target >= |st.plan.body.targets| then st
    else
      var f := st.flight.value;
      LandingFrame(st, f, errors(f.target));
      Land(Landed(st, f, errors(f.target)), errors)
  }

  lemma LandingFrame(st: State, f: Flight, error: Option<string>)
    requires f.target < |st.plan.body.targets|
    ensures var after := Landed(st, f, error);
            |after.plan.body.targets| == |st.plan.body.targets|
            && (after.flight.Some? ==> f.target < after.flight.value.target < |st.plan.body.targets|)
  {}

  lemma {:induction false} SkipDone(b: Body, k: nat, now: int, failed: seq<Failure>, errors: nat -> Option<string>)
    requires k <= |b.targets|
    ensures Finishing(b, k, now, failed, errors) == Finishing(b, NextUndone(b.targets, k), now, failed, errors)
    decreases |b.targets| - k
  {
    if k < |b.targets| && b.targets[k].done { SkipDone(b, k + 1, now, failed, errors); }
  }

  lemma LandStep(st: State, f: Flight, errors: nat -> Option<string>)
    requires st.flight == Some(f) && f.target < |st.plan.body.targets|
    ensures Land(st, errors) == Land(Landed(st, f, errors(f.target)), errors)
  {
    LandingFrame(st, f, errors(f.target));
    hide Landed;
  }

  /** A run that goes on from target `k`, at the next target it has to remove. */
  lemma ResumeAtUndone(st: State, b: Body, k: nat, now: int, failed: seq<Failure>, error: Option<string>)
    requires k <= |b.targets| && NextUndone(b.targets, k) < |b.targets|
    ensures var n, r := NextUndone(b.targets, k), Resume(st, b, k, now, failed);
            var after := Settled(Attempted(b, n), n, now, error);
            && r.flight == Some(Flight(n, now, failed)) && n < |r.plan.body.targets| && n < |after.targets| == |b.targets|
            && Landed(r, r.flight.value, error)
               == Resume(r.(removed := if error.None? then r.removed + [n] else r.removed), after, n + 1, now,
                         FailuresAfter(failed, b.targets[n], error))
  {
    var n := NextUndone(b.targets, k);
    OneTargetShape(b, n, now, error);
    AttemptFrame(b, n);
    hide Attempted, Settled, FailuresAfter, Ended, NextUndone;
  }

  /** A run that nothing overlaps is the event-driven run with its removals settled one after the other. */
  lemma {:induction false} LandIsFinishing(st: State, b: Body, k: nat, now: int, failed: seq<Failure>, errors: nat -> Option<string>)
    requires k <= |b.targets|
    ensures var r := Resume(st, b, k, now, failed);
            (r.flight.Some? ==> r.flight.value.target < |r.plan.body.targets|)
            && Land(r, errors).plan == Finalized(Finishing(b, k, now, failed, errors))
            && Land(r, errors).flight.None?
    decreases |b.targets| - k
  {
    hide Attempted, Settled, FailuresAfter, Ended, Landed, WellMade;
    var n := NextUndone(b.targets, k);
    SkipDone(b, k, now, failed, errors);
    if n < |b.targets| {
      var r := Resume(st, b, k, now, failed);
      ResumeAtUndone(st, b, k, now, failed, errors(n));
      LandStep(r, r.flight.value, errors);
      var settled := Settled(Attempted(b, n), n, now, errors(n));
      var removed' := if errors(n).None? then r.removed + [n] else r.removed;
      FinishingAtUndone(b, n, now, failed, errors);
      hide Finishing, Resume, NextUndone, Land, Finalized;
      LandIsFinishing(r.(removed := removed'), settled, n + 1, now, FailuresAfter(failed, b.targets[n], errors(n)), errors);
    }
  }

  lemma FinishingAtUndone(b: Body, n: nat, now: int, failed: seq<Failure>, errors: nat -> Option<string>)
    requires n < |b.targets| && !b.targets[n].done
    ensures |Settled(Attempted(b, n), n, now, errors(n)).targets| == |b.targets|
    ensures Finishing(b, n, now, failed, errors)
            == Finishing(Settled(Attempted(b, n), n, now, errors(n)), n + 1, now,
                         FailuresAfter(failed, b.targets[n], errors(n)), errors)
  {
    OneTargetShape(b, n, now, errors(n));
    hide Attempted, Settled, FailuresAfter, Ended;
  }

  lemma BegunFrame(b: Body, now: int)
    ensures Begun(b, now).targets == b.targets
  {}

  lemma AttemptFrame(b: Body, n: nat)
    requires n < |b.targets|
    ensures forall failed: seq<Failure>, error: Option<string> ::
              FailuresAfter(failed, Attempted(b, n).targets[n], error) == FailuresAfter(failed, b.targets[n], error)
  {}

  lemma OneTargetShape(b: Body, k: nat, now: int, error: Option<string>)
    requires k < |b.targets|
    ensures |Attempted(b, k).targets| == |b.targets| == |Settled(Attempted(b, k), k, now, error).targets|
  {}

  /** The loop over the targets. */
  method RunPlan(p: Plan, now: int, errors: nat -> Option<string>) returns (r: Plan)
    ensures r == RunAlone(p, now, errors)
  {
    if !Accepted(p) || p.body.status == Complete { return p; }
    hide Settled, Attempted, FailuresAfter, Ended, Begun, WellMade;
    BegunFrame(p.body, now);
    var b := Begun(p.body, now);
    var failed: seq<Failure> := [];
    ghost var whole := Finishing(b, 0, now, [], errors);
    for k := 0 to |b.targets|
      invariant |b.targets| == |p.body.targets| && k <= |b.targets|
      invariant Finishing(b, k, now, failed, errors) == whole
    {
      if b.targets[k].done { continue; }
      var error := errors(k);
      OneTargetShape(b, k, now, error);
      failed := FailuresAfter(failed, b.targets[k], error);
      b := Settled(Attempted(b, k), k, now, error);
    }
    r := Finalized(Ended(b, now, failed));
  }

  lemma {:induction false} FinishingCompletesIff(b: Body, k: nat, now: int, failed: seq<Failure>, errors: nat -> Option<string>)
    requires k <= |b.targets|
    ensures Finishing(b, k, now, failed, errors).status == Complete
            <==> (failed == [] && forall j: nat :: k <= j < |b.targets| && !b.targets[j].done ==> errors(j).None?)
    decreases |b.targets| - k
  {
    if k < |b.targets| {
      if b.targets[k].done {
        FinishingCompletesIff(b, k + 1, now, failed, errors);
      } else {
        var after, more := Settled(Attempted(b, k), k, now, errors(k)), FailuresAfter(failed, b.targets[k], errors(k));
        assert forall j :: k < j < |b.targets| ==> after.targets[j] == b.targets[j];
        assert more == [] <==> failed == [] && errors(k).None?;
        FinishingCompletesIff(after, k + 1, now, more, errors);
      }
    }
  }

  /** A run completes an unfinished plan exactly when none of the removals it still had to make failed. */
  lemma RunCompletesIff(p: Plan, now: int, errors: nat -> Option<string>)
    requires Accepted(p) && p.body.status != Complete
    ensures RunAlone(p, now, errors).body.status == Complete
            <==> forall j: nat :: j < |p.body.targets| && !p.body.targets[j].done ==> errors(j).None?
  {
    BegunFrame(p.body, now);
    FinishingCompletesIff(Begun(p.body, now), 0, now, [], errors);
  }

  /** A target after a run that had to remove it: one attempt more, and done or with the error that was met. */
  predicate Tried(t: Target, u: Target, now: int, error: Option<string>) {
    && u.attempts == t.attempts + 1
    && (if error.None? then u.done && u.completedAt == Some(now) && u.lastError == ""
        else u.done == t.done && u.completedAt == t.completedAt
             && u.lastError == (if Text.Trim(error.value) == "" then "cleanup failed" else Text.Trim(error.value)))
    && t == u.(attempts := t.attempts, done := t.done, completedAt := t.completedAt, lastError := t.lastError)
  }

  /** The errors met on the targets from `k` on, in order. */
  function ErrorsFrom(ts: seq<Target>, k: nat, errors: nat -> Option<string>): seq<Failure>
    requires k <= |ts|
    decreases |ts| - k
  {
    if k == |ts| then []
    else (if !ts[k].done && errors(k).Some? then [Failure(ts[k].kind, CleanError(errors(k).value))] else [])
         + ErrorsFrom(ts, k + 1, errors)
  }

  lemma {:induction false} ErrorsFromSame(ts: seq<Target>, us: seq<Target>, k: nat, errors: nat -> Option<string>)
    requires |ts| == |us| && k <= |ts| && forall j :: k <= j < |ts| ==> ts[j] == us[j]
    ensures ErrorsFrom(ts, k, errors) == ErrorsFrom(us, k, errors)
    decreases |ts| - k
  {
    if k < |ts| { ErrorsFromSame(ts, us, k + 1, errors); }
  }

  lemma OneTargetTried(b: Body, k: nat, now: int, error: Option<string>)
    requires k < |b.targets|
    ensures var after := Settled(Attempted(b, k), k, now, error);
            && |after.targets| == |b.targets| && Tried(b.targets[k], after.targets[k], now, error)
            && (forall j :: 0 <= j < |b.targets| && j != k ==> after.targets[j] == b.targets[j])
            && after == b.(targets := after.targets)
  {}

  lemma FinishingStep(b: Body, k: nat, now: int, failed: seq<Failure>, errors: nat -> Option<string>)
    requires k < |b.targets|
    ensures |Settled(Attempted(b, k), k, now, errors(k)).targets| == |b.targets|
    ensures Finishing(b, k, now, failed, errors)
            == if b.targets[k].done then Finishing(b, k + 1, now, failed, errors)
               else Finishing(Settled(Attempted(b, k), k, now, errors(k)), k + 1, now,
                              FailuresAfter(failed, b.targets[k], errors(k)), errors)
    ensures failed + ErrorsFrom(b.targets, k, errors)
            == (if b.targets[k].done then failed else FailuresAfter(failed, b.targets[k], errors(k)))
               + ErrorsFrom(b.targets, k + 1, errors)
  {
    hide CleanError;
  }

  /** `r` is what is left of `b` after a run from target `k` on. */
  predicate TriedFrom(b: Body, r: Body, k: nat, now: int, errors: nat -> Option<string>) {
    && |r.targets| == |b.targets| && (forall j: nat :: j < k && j < |b.targets| ==> r.targets[j] == b.targets[j])
    && (forall j: nat :: k <= j < |b.targets| ==>
          if b.targets[j].done then r.targets[j] == b.targets[j] else Tried(b.targets[j], r.targets[j], now, errors(j)))
  }

  lemma TriedOneMore(b: Body, after: Body, r: Body, k: nat, now: int, errors: nat -> Option<string>)
    requires k < |b.targets| && TriedFrom(after, r, k + 1, now, errors) && |after.targets| == |b.targets|
    requires forall j :: 0 <= j < |b.targets| && j != k ==> after.targets[j] == b.targets[j]
    requires if b.targets[k].done then after.targets[k] == b.targets[k] else Tried(b.targets[k], after.targets[k], now, errors(k))
    ensures TriedFrom(b, r, k, now, errors)
  {
    hide Tried;
  }

  lemma {:induction false} FinishingTries(b: Body, k: nat, now: int, failed: seq<Failure>, errors: nat -> Option<string>)
    requires k <= |b.targets|
    ensures var r := Finishing(b, k, now, failed, errors);
            TriedFrom(b, r, k, now, errors)
            && r == Ended(b.(targets := r.targets), now, failed + ErrorsFrom(b.targets, k, errors))
    decreases |b.targets| - k
  {
    if k == |b.targets| {
      assert failed + [] == failed;
    } else {
      hide Tried, CleanError, TriedFrom, Finishing, ErrorsFrom, Ended, Settled, Attempted, FailuresAfter;
      FinishingStep(b, k, now, failed, errors);
      if b.targets[k].done {
        FinishingTries(b, k + 1, now, failed, errors);
        TriedOneMore(b, b, Finishing(b, k, now, failed, errors), k, now, errors);
      } else {
        var after, more := Settled(Attempted(b, k), k, now, errors(k)), FailuresAfter(failed, b.targets[k], errors(k));
        OneTargetTried(b, k, now, errors(k));
        FinishingTries(after, k + 1, now, more, errors);
        ErrorsFromSame(after.targets, b.targets, k + 1, errors);
        TriedOneMore(b, after, Finishing(b, k, now, failed, errors), k, now, errors);
      }
    }
  }

  /**
  What a run leaves, field by field: every target that was done is untouched, every other one was tried once with
  the outcome it had; the plan counts one attempt more, keeps its first start, and is complete, or failed with exactly
  the errors met, in order; and its hash fits again.
  */
  lemma RunRecords(p: Plan, now: int, errors: nat -> Option<string>)
    requires Accepted(p) && p.body.status != Complete
    ensures var b, r := p.body, RunAlone(p, now, errors).body;
            var met := ErrorsFrom(b.targets, 0, errors);
            && RunAlone(p, now, errors).planHash == HashOf(r) && |r.targets| == |b.targets|
            && (forall j: nat :: j < |b.targets| ==>
                  if b.targets[j].done then r.targets[j] == b.targets[j]
                  else Tried(b.targets[j], r.targets[j], now, errors(j)))
            && r.attempts == b.attempts + 1 && r.startedAt == (if b.startedAt.Some? then b.startedAt else Some(now))
            && r.lastError == met && r.status == (if met == [] then Complete else Failed)
            && r.completedAt == (if met == [] then Some(now) else None)
            && r.sessionId == b.sessionId && r.maxAttempts == b.maxAttempts
  {
    BegunFrame(p.body, now);
    hide Tried, Finishing;
    FinishingTries(Begun(p.body, now), 0, now, [], errors);
    assert [] + ErrorsFrom(p.body.targets, 0, errors) == ErrorsFrom(p.body.targets, 0, errors);
  }

  // ----- the queue -----

  function Limit(p: Plan, queueMax: int): int { if p.body.maxAttempts == 0 then queueMax else p.body.maxAttempts }

  predicate IsPending(p: Plan, queueMax: int) { p.body.status != Complete && p.body.attempts < Limit(p, queueMax) }

  function Remaining(p: Plan, queueMax: int): nat {
    if IsPending(p, queueMax) then Limit(p, queueMax) - p.body.attempts else 0
  }

  function FirstPending(plans: seq<Plan>, queueMax: int): (i: nat)
    ensures i <= |plans|
    ensures i < |plans| ==> IsPending(plans[i], queueMax)
    ensures forall j :: 0 <= j < i ==> !IsPending(plans[j], queueMax)
  {
    if plans == [] || IsPending(plans[0], queueMax) then 0 else 1 + FirstPending(plans[1..], queueMax)
  }

  /** The attempts all plans still have. */
  function Total(plans: seq<Plan>, queueMax: int): nat {
    if plans == [] then 0 else Remaining(plans[0], queueMax) + Total(plans[1..], queueMax)
  }

  function Find(plans: seq<Plan>, sessionId: string): (i: nat)
    ensures i <= |plans|
    ensures i < |plans| ==> plans[i].body.sessionId == sessionId
    ensures forall j :: 0 <= j < i ==> plans[j].body.sessionId != sessionId
  {
    if plans == [] || plans[0].body.sessionId == sessionId then 0 else 1 + Find(plans[1..], sessionId)
  }

  predicate OnePerSession(plans: seq<Plan>) {
    forall i, j :: 0 <= i < j < |plans| ==> plans[i].body.sessionId != plans[j].body.sessionId
  }

  /** No plan that is still to be run would be refused. */
  predicate PendingAccepted(plans: seq<Plan>, queueMax: int) {
    forall i :: 0 <= i < |plans| && IsPending(plans[i], queueMax) ==> Accepted(plans[i])
  }

  /** The queue after `runNext`. */
  function Next(plans: seq<Plan>, queueMax: int, now: int, errors: nat -> Option<string>): seq<Plan> {
    var i := FirstPending(plans, queueMax);
    if i == |plans| then plans else plans[i := RunAlone(plans[i], now, errors)]
  }

  lemma OneTargetFrame(b: Body, k: nat, now: int, error: Option<string>)
    requires k < |b.targets| && WellMade(b)
    ensures var after := Settled(Attempted(b, k), k, now, error);
            && WellMade(after) && |after.targets| == |b.targets|
            && after.sessionId == b.sessionId && after.attempts == b.attempts && after.maxAttempts == b.maxAttempts
  {
    hide Given;
    var ts := Settled(Attempted(b, k), k, now, error).targets;
    assert forall j :: 0 <= j < |ts| && j != k ==> ts[j] == b.targets[j];
    assert ts[k].kind == b.targets[k].kind && ts[k].path == b.targets[k].path
           && ts[k].relativePath == b.targets[k].relativePath;
  }

  lemma {:induction false} FinishingFrame(b: Body, k: nat, now: int, failed: seq<Failure>, errors: nat -> Option<string>)
    requires k <= |b.targets| && WellMade(b)
    ensures var r := Finishing(b, k, now, failed, errors);
            WellMade(r) && r.sessionId == b.sessionId && r.attempts == b.attempts && r.maxAttempts == b.maxAttempts
    decreases |b.targets| - k
  {
    if k < |b.targets| {
      if b.targets[k].done {
        FinishingFrame(b, k + 1, now, failed, errors);
      } else {
        OneTargetFrame(b, k, now, errors(k));
        var after := Settled(Attempted(b, k), k, now, errors(k));
        hide WellMade, Settled, Attempted;
        FinishingFrame(after, k + 1, now, FailuresAfter(failed, b.targets[k], errors(k)), errors);
      }
    }
  }

  /** A run of an accepted, unfinished plan uses one attempt up and leaves an acceptable plan. */
  lemma RunUsesAnAttempt(p: Plan, now: int, errors: nat -> Option<string>, queueMax: int)
    requires Accepted(p) && IsPending(p, queueMax)
    ensures var r := RunAlone(p, now, errors);
            && Accepted(r) && r.body.sessionId == p.body.sessionId && r.body.attempts == p.body.attempts + 1
            && Remaining(r, queueMax) < Remaining(p, queueMax)
  {
    FinishingFrame(Begun(p.body, now), 0, now, [], errors);
  }

  lemma {:induction false} TotalUpdate(plans: seq<Plan>, i: nat, p: Plan, queueMax: int)
    requires i < |plans|
    ensures Total(plans[i := p], queueMax) + Remaining(plans[i], queueMax) == Total(plans, queueMax) + Remaining(p, queueMax)
  {
    if i == 0 {
      assert plans[0 := p][1..] == plans[1..];
    } else {
      TotalUpdate(plans[1..], i - 1, p, queueMax);
      assert plans[i := p][1..] == plans[1..][i - 1 := p];
    }
  }

  lemma {:induction false} TotalIsPositive(plans: seq<Plan>, i: nat, queueMax: int)
    requires i < |plans| && IsPending(plans[i], queueMax)
    ensures Total(plans, queueMax) >= 1
  {
    if i > 0 { TotalIsPositive(plans[1..], i - 1, queueMax); }
  }

  /** Running the first pending plan: refused and unchanged, or one attempt less in the queue. */
  lemma NextUsesAnAttempt(plans: seq<Plan>, queueMax: int, now: int, errors: nat -> Option<string>)
    requires FirstPending(plans, queueMax) < |plans|
    ensures var i, after := FirstPending(plans, queueMax), Next(plans, queueMax, now, errors);
            && (if Accepted(plans[i]) then Total(after, queueMax) < Total(plans, queueMax) else after == plans)
            && (PendingAccepted(plans, queueMax) ==> PendingAccepted(after, queueMax))
            && |after| == |plans| && after[i].body.sessionId == plans[i].body.sessionId
            && (forall j :: 0 <= j < |plans| && j != i ==> after[j] == plans[j])
  {
    var i := FirstPending(plans, queueMax);
    var p := RunAlone(plans[i], now, errors);
    if Accepted(plans[i]) {
      RunUsesAnAttempt(plans[i], now, errors, queueMax);
      TotalUpdate(plans, i, p, queueMax);
      hide Accepted, Remaining, IsPending, Total, RunAlone, FirstPending;
    } else {
      assert plans[i := plans[i]] == plans;
    }
  }

  /** The queue after `n` calls of `runNext`, one after the other, in any environment. */
  function Repeated(plans: seq<Plan>, queueMax: int, now: nat -> int, errors: nat -> nat -> Option<string>, n: nat): seq<Plan> {
    if n == 0 then plans else Next(Repeated(plans, queueMax, now, errors, n - 1), queueMax, now(n - 1), errors(n - 1))
  }

  predicate IsEmpty(plans: seq<Plan>, queueMax: int) { FirstPending(plans, queueMax) == |plans| }

  lemma {:induction false} RunsShrink(plans: seq<Plan>, queueMax: int, now: nat -> int, errors: nat -> nat -> Option<string>, n: nat)
    requires PendingAccepted(plans, queueMax)
    ensures var after := Repeated(plans, queueMax, now, errors, n);
            PendingAccepted(after, queueMax)
            && (IsEmpty(after, queueMax) || Total(after, queueMax) + n <= Total(plans, queueMax))
  {
    hide PendingAccepted, Accepted, Total, FirstPending;
    if n > 0 {
      RunsShrink(plans, queueMax, now, errors, n - 1);
      var before := Repeated(plans, queueMax, now, errors, n - 1);
      if !IsEmpty(before, queueMax) {
        FirstIsAccepted(before, queueMax);
        NextUsesAnAttempt(before, queueMax, now(n - 1), errors(n - 1));
      }
    }
  }

  lemma FirstIsAccepted(plans: seq<Plan>, queueMax: int)
    requires PendingAccepted(plans, queueMax)
    ensures FirstPending(plans, queueMax) <= |plans|
    ensures FirstPending(plans, queueMax) < |plans| ==> Accepted(plans[FirstPending(plans, queueMax)])
  {}

  lemma {:induction false} RefusedStays(plans: seq<Plan>, i: nat, queueMax: int, now: nat -> int, errors: nat -> nat -> Option<string>, n: nat)
    requires i < |plans| && IsPending(plans[i], queueMax) && !Accepted(plans[i])
    ensures var after := Repeated(plans, queueMax, now, errors, n); |after| == |plans| && after[i] == plans[i]
    ensures !IsEmpty(Repeated(plans, queueMax, now, errors, n), queueMax)
  {
    if n > 0 {
      hide Accepted, IsPending;
      RefusedStays(plans, i, queueMax, now, errors, n - 1);
      NextUsesAnAttempt(Repeated(plans, queueMax, now, errors, n - 1), queueMax, now(n - 1), errors(n - 1));
    }
  }

  /**
  For every list of plans and whatever removals fail: running next as often as there are attempts left empties the
  queue exactly when every pending plan is accepted. Otherwise no number of runs empties it.
  */
  lemma RunsEmptyTheQueueIff(plans: seq<Plan>, queueMax: int, now: nat -> int, errors: nat -> nat -> Option<string>)
    ensures IsEmpty(Repeated(plans, queueMax, now, errors, Total(plans, queueMax)), queueMax) <==> PendingAccepted(plans, queueMax)
    ensures !PendingAccepted(plans, queueMax) ==> forall n: nat :: !IsEmpty(Repeated(plans, queueMax, now, errors, n), queueMax)
  {
    var total := Total(plans, queueMax);
    if PendingAccepted(plans, queueMax) {
      RunsShrink(plans, queueMax, now, errors, total);
      var after := Repeated(plans, queueMax, now, errors, total);
      if !IsEmpty(after, queueMax) { TotalIsPositive(after, FirstPending(after, queueMax), queueMax); }
    } else {
      var i :| 0 <= i < |plans| && IsPending(plans[i], queueMax) && !Accepted(plans[i]);
      forall n: nat ensures !IsEmpty(Repeated(plans, queueMax, now, errors, n), queueMax) {
        RefusedStays(plans, i, queueMax, now, errors, n);
      }
    }
  }

  lemma {:induction false} LandKeeps(st: State, errors: nat -> Option<string>)
    requires Inv(st)
    ensures Inv(Land(st, errors)) && Land(st, errors).flight.None?
    decreases if st.flight.Some? then |st.plan.body.targets| - st.flight.value.target else 0
  {
    if st.flight.Some? {
      var f := st.flight.value;
      LandingKeeps(st, f, errors(f.target));
      LandingFrame(st, f, errors(f.target));
      hide Inv, Landed;
      LandKeeps(Landed(st, f, errors(f.target)), errors);
    }
  }

  /**
  How a plan comes to be refused: its own run is in flight. While it is the first pending one, running next changes
  nothing, later plans included; once the removals have settled, however they do, the plan is accepted again.
  */
  lemma FlightBlocksTheQueue(b: Body, events: seq<Event>, plans: seq<Plan>, queueMax: int, now: int,
                             errors: nat -> Option<string>)
    requires Fresh(b) && Run(b, events).flight.Some?
    requires FirstPending(plans, queueMax) < |plans| && plans[FirstPending(plans, queueMax)] == Run(b, events).plan
    ensures !Accepted(Run(b, events).plan) && Next(plans, queueMax, now, errors) == plans
    ensures Land(Run(b, events), errors).flight.None? && Accepted(Land(Run(b, events), errors).plan)
  {
    Reachable(b, events);
    var st := Run(b, events);
    FlightIsLocked(st);
    LandKeeps(st, errors);
    NextUsesAnAttempt(plans, queueMax, now, errors);
  }

  /** Such a queue exists: any fresh plan that may be tried more than once, while its first run waits. */
  lemma FlightInTheQueue(b: Body, queueMax: int, now: int)
    requires Fresh(b) && Limit(Finalized(b), queueMax) > 1
    ensures var st := Run(b, [RunCalled(now)]);
            st.flight.Some? && FirstPending([st.plan], queueMax) == 0 && !PendingAccepted([st.plan], queueMax)
  {
    FirstRunWaits(b, now);
    var st := Run(b, [RunCalled(now)]);
    Reachable(b, [RunCalled(now)]);
    FlightIsLocked(st);
    assert st.plan.body.maxAttempts == b.maxAttempts by {
      assert [RunCalled(now)][..0] == [];
      assert Run(b, []) == State(Finalized(b), None, []);
    }
    assert IsPending([st.plan][0], queueMax) && !Accepted([st.plan][0]);
  }

  /** Nothing is left to do for a plan, or no attempt to do it: its own limit holds, unless it is zero. */
  predicate Spent(b: Body, queueMax: int) {
    b.status == Complete || (if b.maxAttempts != 0 then b.attempts >= b.maxAttempts else b.attempts >= queueMax)
  }

  datatype Outcome = Empty | NotFound | Refused | Ran(status: Status)

  class Queue {
    const maxAttempts: int
    var plans: seq<Plan>

    constructor (maxAttempts: int)
      ensures plans == [] && this.maxAttempts == maxAttempts
    {
      this.maxAttempts, plans := maxAttempts, [];
    }

    ghost predicate Valid()
      reads this
    {
      OnePerSession(plans)
    }

    /** Queues a plan for a validated record; an unfinished plan of the session is kept, a finished one replaced. */
    method Enqueue(b: Body) returns (existing: bool)
      requires Valid() && Fresh(b)
      modifies this
      ensures Valid()
      ensures existing <==> exists i :: 0 <= i < |old(plans)| && old(plans)[i].body.sessionId == b.sessionId
                                        && old(plans)[i].body.status != Complete
      ensures existing ==> plans == old(plans)
      ensures !existing ==> plans == var i := Find(old(plans), b.sessionId);
                                     if i < |old(plans)| then old(plans)[i := Finalized(b)] else old(plans) + [Finalized(b)]
      ensures PendingAccepted(old(plans), maxAttempts) ==> PendingAccepted(plans, maxAttempts)
    {
      var i := Find(plans, b.sessionId);
      if i < |plans| && plans[i].body.status != Complete { return true; }
      ghost var was := plans;
      if i < |plans| {
        plans := plans[i := Finalized(b)];
        assert forall j :: 0 <= j < |was| && j != i ==> plans[j] == was[j];
      } else {
        plans := plans + [Finalized(b)];
      }
      existing := false;
    }

    method RunSession(sessionId: string, now: int, errors: nat -> Option<string>) returns (r: Outcome)
      modifies this
      ensures var i := Find(old(plans), sessionId);
              if i == |old(plans)| then r == NotFound && plans == old(plans)
              else plans == old(plans)[i := RunAlone(old(plans)[i], now, errors)]
                   && r == if !Accepted(old(plans)[i]) then Refused else Ran(plans[i].body.status)
    {
      var i := Find(plans, sessionId);
      if i == |plans| { return NotFound; }
      var accepted := Accepted(plans[i]);
      var p := RunPlan(plans[i], now, errors);
      plans := plans[i := p];
      r := if accepted then Ran(p.body.status) else Refused;
    }

    method RunNext(now: int, errors: nat -> Option<string>) returns (r: Outcome)
      requires Valid()
      modifies this
      ensures Valid() && plans == Next(old(plans), maxAttempts, now, errors)
      ensures r == Empty <==> IsEmpty(old(plans), maxAttempts)
      ensures r == Empty <==> forall i :: 0 <= i < |old(plans)| ==> Spent(old(plans)[i].body, maxAttempts)
      ensures r == Refused ==> plans == old(plans) && !PendingAccepted(plans, maxAttempts)
      ensures r.Ran? ==> Total(plans, maxAttempts) < Total(old(plans), maxAttempts)
      ensures r != NotFound && (PendingAccepted(old(plans), maxAttempts) ==> PendingAccepted(plans, maxAttempts))
    {
      var i := FirstPending(plans, maxAttempts);
      if i == |plans| { return Empty; }
      NextUsesAnAttempt(plans, maxAttempts, now, errors);
      assert Find(plans, plans[i].body.sessionId) == i;
      r := RunSession(plans[i].body.sessionId, now, errors);
    }

    /** Whatever the file system does, running next until the queue is empty takes at most the attempts left. */
    method RunUntilEmpty(now: nat -> int, errors: nat -> nat -> Option<string>) returns (runs: nat)
      requires Valid() && PendingAccepted(plans, maxAttempts)
      modifies this
      ensures Valid() && IsEmpty(plans, maxAttempts)
      ensures runs <= Total(old(plans), maxAttempts)
    {
      runs := 0;
      while true
        invariant Valid() && PendingAccepted(plans, maxAttempts)
        invariant runs + Total(plans, maxAttempts) <= Total(old(plans), maxAttempts)
        decreases Total(plans, maxAttempts)
      {
        var r := RunNext(now(runs), errors(runs));
        if r == Empty { break; }
        runs := runs + 1;
      }
    }
  }
}
