/**
The command-plan protocol on the serial slot that runs its jobs. Here a completion names the job whose body has ended,
in whatever order the runtime ends bodies, and other jobs share the slot. Every run of this system is a run of the
protocol, in which completions only ever end the oldest job.
*/
module CommandPlanSystem {
  import opened Wrappers
  import opened CommandPlan
  import opened CommandPlanSafety
  import SerialQueue

  /** `places[j]` is the position of the plan job `j` in the slot. */
  datatype System = System(plan: State, slot: SerialQueue.State, places: seq<nat>)

  /** What a job body reports when it calls `onFinish`. */
  datatype Report = Report(outcome: Outcome, expectedStatus: string)

  datatype Action =
    | Request(e: Event)
    | OtherJob
    | Reaction(body: nat)
    | BodyEnds(body: nat, report: Option<Report>)
    | TailFulfils(body: nat)

  predicate IsRequest(e: Event) { !e.FinishJob? && !e.DropJob? }

  /** The plan job at a position of the slot, or the number of plan jobs. */
  function JobAt(places: seq<nat>, body: nat): (j: nat)
    ensures j <= |places| && (j < |places| ==> places[j] == body)
    ensures j == |places| ==> body !in places
  {
    if places == [] || places[0] == body then 0 else 1 + JobAt(places[1..], body)
  }

  /** Job `j` itself ends: with its own `onFinish` callback, or without one. */
  function EndJob(s: State, j: nat, report: Option<Report>): State
    requires j < |s.jobs|
  {
    var job := s.jobs[j];
    var ending := if report.Some? then Finished(report.value.outcome) else Dropped;
    var ended := s.(jobs := s.jobs[j := job.(ending := ending)], settled := s.settled + 1);
    if report.None? || job.planId !in s.plans then ended
    else ended.(plans := s.plans[job.planId :=
           Completed(s.plans[job.planId], job, j, report.value.outcome, report.value.expectedStatus)])
  }

  function Act(h: Host, y: System, a: Action): System {
    match a
    case Request(e) =>
      if !IsRequest(e) then y
      else
        var plan := Step(h, y.plan, e);
        if |plan.jobs| == |y.plan.jobs| then y.(plan := plan)
        else System(plan, SerialQueue.Step(y.slot, SerialQueue.Enqueue), y.places + [|y.slot.bodies|])
    case OtherJob => y.(slot := SerialQueue.Step(y.slot, SerialQueue.Enqueue))
    case Reaction(i) => y.(slot := SerialQueue.Step(y.slot, SerialQueue.Reaction(i)))
    case TailFulfils(i) => y.(slot := SerialQueue.Step(y.slot, SerialQueue.TailFulfils(i)))
    case BodyEnds(i, report) =>
      if i >= |y.slot.bodies| || y.slot.bodies[i] != SerialQueue.Running then y
      else
        var j := JobAt(y.places, i);
        System(if j < |y.plan.jobs| then EndJob(y.plan, j, report) else y.plan,
               SerialQueue.Step(y.slot, SerialQueue.BodyEnds(i, report.Some?)), y.places)
  }

  function Boot(w: World): System { System(Start(w), SerialQueue.EMPTY, []) }

  function Play(h: Host, y: System, actions: seq<Action>): System {
    if actions == [] then y else Act(h, Play(h, y, actions[..|actions| - 1]), actions[|actions| - 1])
  }

  // ----- the link between plan jobs and the slot -----

  ghost predicate Linked(y: System) {
    && SerialQueue.Inv(y.slot) && QueueOk(y.plan) && |y.places| == |y.plan.jobs|
    && (forall j :: 0 <= j < |y.places| ==> y.places[j] < |y.slot.bodies|)
    && (forall i, j :: 0 <= i < j < |y.places| ==> y.places[i] < y.places[j])
    && (forall j :: 0 <= j < |y.places| ==> (j < y.plan.settled <==> y.slot.bodies[y.places[j]] == SerialQueue.Over))
  }

  /** The running body, if it is a plan job's, is that of the oldest job that has not ended. */
  lemma RunningIsHead(y: System, i: nat)
    requires Linked(y) && i < |y.slot.bodies| && y.slot.bodies[i] == SerialQueue.Running
    ensures JobAt(y.places, i) < |y.places| ==> JobAt(y.places, i) == y.plan.settled
  {
    var j := JobAt(y.places, i);
    assert j < |y.places| ==> y.places[j] == i && y.plan.settled <= j;
    if 0 < j < |y.places| {
      assert y.places[j - 1] < y.places[j];
      assert y.slot.bodies[y.places[j - 1]] == SerialQueue.Over;
    }
  }

  /** Ending the head of the queue is the protocol's own completion step. */
  lemma EndHeadIsFinish(h: Host, s: State, report: Option<Report>)
    requires s.settled < |s.jobs|
    ensures EndJob(s, s.settled, report)
            == Step(h, s, if report.Some? then FinishJob(report.value.outcome, report.value.expectedStatus) else DropJob)
  {
    hide Completed;
  }

  /** A request leaves the queue's head alone and enqueues at most one job. */
  lemma RequestAddsAtMostOne(h: Host, s: State, e: Event)
    requires IsRequest(e) && QueueOk(s)
    ensures var t := Step(h, s, e);
            QueueOk(t) && t.settled == s.settled && |s.jobs| <= |t.jobs| <= |s.jobs| + 1
  {
    hide SaveTargets, DryRunRefusal, CheckPlanHash, CanEditTargets, ConfirmRefusal, NewPlan;
  }

  lemma RequestKeepsLink(h: Host, y: System, e: Event)
    requires Linked(y) && IsRequest(e)
    ensures Linked(Act(h, y, Request(e)))
  {
    RequestAddsAtMostOne(h, y.plan, e);
    SerialQueue.StepKeeps(y.slot, SerialQueue.Enqueue);
    hide Step, SerialQueue.Inv;
    QueueGrew(y.plan, Step(h, y.plan, e));
    assert |y.slot.tails| == |y.slot.bodies| by { SlotShape(y.slot); }
  }

  lemma SlotShape(s: SerialQueue.State)
    requires SerialQueue.Inv(s)
    ensures |s.tails| == |s.bodies|
  {}

  lemma QueueGrew(s: State, t: State)
    requires QueueOk(s) && QueueOk(t) && t.settled == s.settled && |s.jobs| <= |t.jobs| <= |s.jobs| + 1
    ensures |t.jobs| == |s.jobs| + 1 ==> t.settled <= |s.jobs|
  {}

  /** The slot moves without ending a body: nothing changes for the plans. */
  lemma SlotKeepsLink(y: System, e: SerialQueue.Event)
    requires Linked(y) && (e.Enqueue? || e.Reaction? || e.TailFulfils?)
    ensures Linked(y.(slot := SerialQueue.Step(y.slot, e)))
  {
    SerialQueue.StepKeeps(y.slot, e);
    SlotShape(y.slot);
  }

  lemma EndingKeepsLink(h: Host, y: System, i: nat, report: Option<Report>)
    requires Linked(y) && i < |y.slot.bodies| && y.slot.bodies[i] == SerialQueue.Running
    ensures Linked(Act(h, y, BodyEnds(i, report)))
  {
    RunningIsHead(y, i);
    SerialQueue.StepKeeps(y.slot, SerialQueue.BodyEnds(i, report.Some?));
    SlotShape(y.slot);
    hide Completed, SerialQueue.Inv;
    var j, t := JobAt(y.places, i), Act(h, y, BodyEnds(i, report));
    assert t.slot.bodies == y.slot.bodies[i := SerialQueue.Over];
    forall k | 0 <= k < |y.places| && k != j ensures y.places[k] != i {
      if j < |y.places| { assert k < j ==> y.places[k] < y.places[j]; assert j < k ==> y.places[j] < y.places[k]; }
    }
  }

  /** The protocol event, if any, that an action of the system amounts to. */
  function AsEvents(h: Host, y: System, a: Action): seq<Event> {
    match a
    case Request(e) => if IsRequest(e) then [e] else []
    case BodyEnds(i, report) =>
      if i >= |y.slot.bodies| || y.slot.bodies[i] != SerialQueue.Running || JobAt(y.places, i) >= |y.plan.jobs| then []
      else if report.Some? then [FinishJob(report.value.outcome, report.value.expectedStatus)] else [DropJob]
    case _ => []
  }

  lemma RunSingle(h: Host, s: State, e: Event)
    ensures Run(h, s, [e]) == Step(h, s, e)
  {
    assert [e][..0] == [];
    hide Step;
  }

  lemma {:induction false} RunAppend(h: Host, s: State, a: seq<Event>, b: seq<Event>)
    ensures Run(h, s, a + b) == Run(h, Run(h, s, a), b)
    decreases |b|
  {
    hide Step;
    if b == [] {
      assert a + b == a;
    } else {
      RunAppend(h, s, a, b[..|b| - 1]);
      assert (a + b)[..|a + b| - 1] == a + b[..|b| - 1];
    }
  }

  /** Every action keeps the link and is a protocol step, or none, for the plans. */
  lemma ActIsStep(h: Host, y: System, a: Action)
    requires Linked(y)
    ensures Linked(Act(h, y, a)) && Act(h, y, a).plan == Run(h, y.plan, AsEvents(h, y, a))
  {
    hide Linked, Step, EndJob, SerialQueue.Step;
    match a
    case Request(e) =>
      if IsRequest(e) {
        RequestKeepsLink(h, y, e);
        RunSingle(h, y.plan, e);
      }
    case OtherJob => SlotKeepsLink(y, SerialQueue.Enqueue);
    case Reaction(i) => SlotKeepsLink(y, SerialQueue.Reaction(i));
    case TailFulfils(i) => SlotKeepsLink(y, SerialQueue.TailFulfils(i));
    case BodyEnds(i, report) =>
      if i < |y.slot.bodies| && y.slot.bodies[i] == SerialQueue.Running {
        EndingKeepsLink(h, y, i, report);
        RunningIsHead(y, i);
        LinkedSizes(y);
        if JobAt(y.places, i) < |y.plan.jobs| {
          EndHeadIsFinish(h, y.plan, report);
          RunSingle(h, y.plan, AsEvents(h, y, a)[0]);
        }
      }
  }

  lemma LinkedSizes(y: System)
    requires Linked(y)
    ensures |y.places| == |y.plan.jobs|
  {}

  /**
  The slot's order is a legal order of completions: every run of the system, in any interleaving, is for the plans a
  run of the protocol from the same state.
  */
  lemma {:induction false} SystemRefinesProtocol(h: Host, y: System, actions: seq<Action>) returns (events: seq<Event>)
    requires Linked(y)
    ensures Linked(Play(h, y, actions)) && Play(h, y, actions).plan == Run(h, y.plan, events)
  {
    hide Linked, Act, Step, AsEvents;
    if actions == [] {
      events := [];
    } else {
      var front, a := actions[..|actions| - 1], actions[|actions| - 1];
      var before := SystemRefinesProtocol(h, y, front);
      var mid := Play(h, y, front);
      ActIsStep(h, mid, a);
      RunAppend(h, y.plan, before, AsEvents(h, mid, a));
      events := before + AsEvents(h, mid, a);
    }
  }

  lemma BootIsLinked(w: World)
    ensures Linked(Boot(w))
  {}

  /** In the composed system the recorded verdict of a live job is final, whatever else the slot runs. */
  lemma SystemVerdictIsFinal(h: Host, w: World, before: seq<Action>, after: seq<Action>, id: string, i: nat)
    requires Collates(h)
    requires var s := Play(h, Boot(w), before).plan; LiveAt(s, i, id) && Ended(s, i)
    ensures var y := Play(h, Boot(w), before);
            var s, t := y.plan, Play(h, y, after).plan;
            && id in s.plans && id in t.plans && t.plans[id] == s.plans[id]
            && (s.jobs[i].ending.Finished? ==> t.plans[id].status in {Succeeded, Failed} && t.plans[id].jobId == Some(i))
  {
    BootIsLinked(w);
    var y := Play(h, Boot(w), before);
    var first := SystemRefinesProtocol(h, Boot(w), before);
    var second := SystemRefinesProtocol(h, y, after);
    hide Play, Linked, LiveAt, Ended;
    LiveVerdictIsFinal(h, w, first, second, id, i);
  }

  /** And its plans have at most one live job each. */
  lemma SystemHasOneLiveJob(h: Host, w: World, actions: seq<Action>, id: string, i: nat, k: nat)
    requires Collates(h)
    requires var s := Play(h, Boot(w), actions).plan; LiveAt(s, i, id) && LiveAt(s, k, id)
    ensures i == k
  {
    BootIsLinked(w);
    var events := SystemRefinesProtocol(h, Boot(w), actions);
    hide Play, Linked, LiveAt;
    AtMostOneLiveJob(h, w, events, id, i, k);
  }
}
