/**
The serial slot of the web interface's jobs: each `enqueue` hangs a job body on the promise behind the previous one.

A job's body may end with or without calling its `onFinish`. Reactions run whenever the runtime gets to them.
*/
module SerialQueue {

  datatype Body = Waiting | Running | Over

  /** `tails[i]`: the promise that the job after `i` waits for has been fulfilled. */
  datatype State = State(bodies: seq<Body>, tails: seq<bool>, starts: seq<nat>, reports: seq<nat>)

  datatype Event =
    | Enqueue
    | Reaction(job: nat)
    | BodyEnds(job: nat, reported: bool)
    | TailFulfils(job: nat)

  const EMPTY := State([], [], [], [])

  /** The reaction that runs body `i` is due. */
  predicate IsDue(s: State, i: nat)
    requires |s.bodies| == |s.tails|
  {
    i < |s.bodies| && s.bodies[i] == Waiting && (i == 0 || s.tails[i - 1])
  }

  function Step(s: State, e: Event): State {
    if |s.bodies| != |s.tails| then s
    else
      match e
      case Enqueue => s.(bodies := s.bodies + [Waiting], tails := s.tails + [false])
      case Reaction(i) => if IsDue(s, i) then s.(bodies := s.bodies[i := Running], starts := s.starts + [i]) else s
      case BodyEnds(i, reported) =>
        if i < |s.bodies| && s.bodies[i] == Running
        then s.(bodies := s.bodies[i := Over], reports := if reported then s.reports + [i] else s.reports) else s
      case TailFulfils(i) => if i < |s.bodies| && s.bodies[i] == Over then s.(tails := s.tails[i := true]) else s
  }

  function Run(events: seq<Event>): State {
    if events == [] then EMPTY else Step(Run(events[..|events| - 1]), events[|events| - 1])
  }

  class Slot {
    var bodies: seq<Body>
    var tails: seq<bool>
    var starts: seq<nat>
    var reports: seq<nat>

    function Model(): State
      reads this
    {
      State(bodies, tails, starts, reports)
    }

    constructor ()
      ensures Model() == EMPTY
    {
      bodies, tails, starts, reports := [], [], [], [];
    }

    /** `tail = tail.then(() => runJob(job)).catch(() => {})` */
    method Append()
      requires |bodies| == |tails|
      modifies this
      ensures Model() == Step(old(Model()), Enqueue)
      ensures bodies[..|old(bodies)|] == old(bodies) && |bodies| == |old(bodies)| + 1 && bodies[|old(bodies)|] == Waiting
    {
      bodies := bodies + [Waiting];
      tails := tails + [false];
    }

    method Begin(i: nat)
      requires |bodies| == |tails| && IsDue(Model(), i)
      modifies this
      ensures Model() == Step(old(Model()), Reaction(i))
    {
      bodies := bodies[i := Running];
      starts := starts + [i];
    }

    method End(i: nat, callsOnFinish: bool)
      requires |bodies| == |tails| && i < |bodies| && bodies[i] == Running
      modifies this
      ensures Model() == Step(old(Model()), BodyEnds(i, callsOnFinish))
    {
      if callsOnFinish { reports := reports + [i]; }
      bodies := bodies[i := Over];
    }

    method Fulfil(i: nat)
      requires |bodies| == |tails| && i < |bodies| && bodies[i] == Over
      modifies this
      ensures Model() == Step(old(Model()), TailFulfils(i))
    {
      tails := tails[i := true];
    }
  }

  // ----- every run -----

  predicate IsIncreasing(s: seq<nat>) { forall i, j :: 0 <= i < j < |s| ==> s[i] < s[j] }

  predicate Inv(s: State) {
    var n := |s.starts|;
    && |s.tails| == |s.bodies| && n <= |s.bodies|
    && (forall i :: 0 <= i < n ==> s.starts[i] == i)
    && (forall i :: 0 <= i < n - 1 ==> s.bodies[i] == Over)
    && (n > 0 ==> s.bodies[n - 1] != Waiting)
    && (forall i :: n <= i < |s.bodies| ==> s.bodies[i] == Waiting)
    && (forall i :: 0 <= i < |s.tails| && s.tails[i] ==> s.bodies[i] == Over)
    && IsIncreasing(s.reports)
    && (forall k :: 0 <= k < |s.reports| ==> s.reports[k] < n && s.bodies[s.reports[k]] == Over)
  }

  lemma StepKeeps(s: State, e: Event)
    requires Inv(s)
    ensures Inv(Step(s, e))
  {
    if e.BodyEnds? && e.job < |s.bodies| && s.bodies[e.job] == Running {
      assert e.job == |s.starts| - 1;
      forall k | 0 <= k < |s.reports| ensures s.reports[k] < e.job { assert s.bodies[s.reports[k]] == Over; }
    }
  }

  lemma {:induction false} Reachable(events: seq<Event>)
    ensures Inv(Run(events))
  {
    if events != [] {
      Reachable(events[..|events| - 1]);
      StepKeeps(Run(events[..|events| - 1]), events[|events| - 1]);
    }
  }

  /** Bodies start in enqueue order and one at a time; the jobs that are over are always the oldest ones. */
  lemma OneAtATimeInOrder(events: seq<Event>)
    ensures var s := Run(events);
            && (forall i :: 0 <= i < |s.starts| ==> s.starts[i] == i)
            && (forall i, j :: 0 <= i < |s.bodies| && 0 <= j < |s.bodies| && s.bodies[i] == Running == s.bodies[j] ==> i == j)
            && (forall i, j :: 0 <= i < j < |s.bodies| && s.bodies[j] != Waiting ==> s.bodies[i] == Over)
  {
    Reachable(events);
  }

  /** `onFinish` calls come in enqueue order, at most one a job, and only after every earlier job is over. */
  lemma ReportsFollowTheQueue(events: seq<Event>, e: Event)
    ensures var s, t := Run(events), Step(Run(events), e);
            && IsIncreasing(t.reports)
            && (|t.reports| > |s.reports| ==>
                  var i := t.reports[|s.reports|];
                  e == BodyEnds(i, true) && t.reports == s.reports + [i] && forall j :: 0 <= j < i ==> s.bodies[j] == Over)
  {
    Reachable(events);
    StepKeeps(Run(events), e);
  }
}
