/** Whole-run safety of the command-plan protocol, over every interleaving of its events. */
module CommandPlanSafety {
  import opened Wrappers
  import opened CommandPlan
  import Text

  // ----- what a built target set is -----

  predicate NoDuplicates(keys: seq<string>) {
    forall i, j :: 0 <= i < j < |keys| ==> keys[i] != keys[j]
  }

  predicate CleanKey(k: string) { k != "" && Text.Trimmed(k) }

  predicate NormalForm(keys: seq<string>) {
    NoDuplicates(keys) && forall k <- keys :: CleanKey(k)
  }

  ghost predicate Sorted(h: Host, ts: seq<Target>) {
    forall i :: 0 <= i < |ts| - 1 ==> h.precedes(ts[i].key, ts[i + 1].key)
  }

  ghost predicate WellBound(h: Host, ts: seq<Target>) {
    forall t <- ts :: t.titleHash == HashText(h, t.title) && t.summaryHash == HashText(h, t.summary)
  }

  predicate DistinctTargets(ts: seq<Target>) {
    forall i, j :: 0 <= i < j < |ts| ==> ts[i].key != ts[j].key
  }

  /** Every target set the review builds: trimmed distinct keys in collation order, hashes that fit the text. */
  ghost predicate Built(h: Host, ts: seq<Target>) {
    DistinctTargets(ts) && (forall t <- ts :: CleanKey(t.key)) && Sorted(h, ts) && WellBound(h, ts)
  }

  lemma {:induction false} TrimmedKeysAreClean(keys: seq<string>)
    ensures forall k <- TrimmedKeys(keys) :: CleanKey(k)
    ensures (forall k <- keys :: CleanKey(k)) ==> TrimmedKeys(keys) == keys
  {
    if keys != [] {
      Text.TrimIsTrimmed(keys[0]);
      TrimmedKeysAreClean(keys[1..]);
      if forall k <- keys :: CleanKey(k) {
        assert CleanKey(keys[0]);
        assert forall k <- keys[1..] :: k in keys;
        Text.TrimmedIsFixed(keys[0]);
        assert [keys[0]] + keys[1..] == keys;
      }
    }
  }

  lemma {:induction false} DistinctIsDistinct(keys: seq<string>)
    ensures NoDuplicates(Distinct(keys))
    ensures forall k :: k in Distinct(keys) <==> k in keys
    ensures NoDuplicates(keys) ==> Distinct(keys) == keys
  {
    if keys != [] {
      var front := keys[..|keys| - 1];
      DistinctIsDistinct(front);
      assert keys == front + [keys[|keys| - 1]];
    }
  }

  lemma NormalKeysIsNormal(keys: seq<string>)
    ensures NormalForm(NormalKeys(keys))
    ensures NormalForm(keys) ==> NormalKeys(keys) == keys
  {
    TrimmedKeysAreClean(keys);
    DistinctIsDistinct(TrimmedKeys(keys));
  }

  lemma {:induction false} InsertSorts(h: Host, t: Target, ts: seq<Target>)
    requires Collates(h) && Sorted(h, ts) && DistinctTargets(ts) && forall x <- ts :: x.key != t.key
    ensures var r := Insert(h, t, ts);
            && Sorted(h, r) && DistinctTargets(r)
            && (forall x :: x in r <==> x == t || x in ts)
            && |r| > 0 && (r[0] == t || (ts != [] && r[0] == ts[0]))
  {
    if ts != [] && !h.precedes(t.key, ts[0].key) {
      assert h.precedes(ts[0].key, t.key);
      InsertSorts(h, t, ts[1..]);
      var rest := Insert(h, t, ts[1..]);
      assert forall x <- rest :: x.key != ts[0].key;
    }
  }

  lemma {:induction false} SortSorts(h: Host, ts: seq<Target>)
    requires Collates(h) && DistinctTargets(ts)
    ensures var r := SortByKey(h, ts);
            && Sorted(h, r) && DistinctTargets(r) && (forall x :: x in r <==> x in ts)
            && (Sorted(h, ts) ==> r == ts)
  {
    if ts != [] {
      SortSorts(h, ts[1..]);
      InsertSorts(h, ts[0], SortByKey(h, ts[1..]));
      assert forall x :: x in ts <==> x == ts[0] || x in ts[1..];
      if Sorted(h, ts) {
        assert Sorted(h, ts[1..]) by {
          forall i | 0 <= i < |ts[1..]| - 1 ensures h.precedes(ts[1..][i].key, ts[1..][i + 1].key) {
            assert h.precedes(ts[i + 1].key, ts[i + 1 + 1].key);
          }
        }
        if |ts| > 1 { assert h.precedes(ts[0].key, ts[0 + 1].key); }
        assert [ts[0]] + ts[1..] == ts;
      }
    }
  }

  ghost predicate TitlesCurrent(w: World, system: string, titleField: string, ts: seq<Target>) {
    forall t <- ts :: TitleOf(w, system, titleField, t.key) == Some(t.title)
  }

  lemma SortBuilds(h: Host, made: seq<Target>)
    requires Collates(h) && DistinctTargets(made) && (forall t <- made :: CleanKey(t.key)) && WellBound(h, made)
    ensures Built(h, SortByKey(h, made))
  {
    SortSorts(h, made);
    assert forall t <- SortByKey(h, made) :: t in made;
  }

  lemma MadeIsBuildable(h: Host, w: World, system: string, titleField: string, keys: seq<string>)
    requires NormalForm(keys) && forall k <- keys :: TitleOf(w, system, titleField, k).Some?
    ensures var made := MakeTargets(h, w, system, titleField, keys);
            && |made| == |keys| && (forall i :: 0 <= i < |keys| ==> made[i].key == keys[i])
            && DistinctTargets(made) && (forall t <- made :: CleanKey(t.key)) && WellBound(h, made)
            && TitlesCurrent(w, system, titleField, made)
  {
    var made := MakeTargets(h, w, system, titleField, keys);
    assert |made| == |KeysOf(made)|;
    assert forall i :: 0 <= i < |made| ==> made[i].key == KeysOf(made)[i];
  }

  /** A successful review is well formed and carries the titles the database holds now. */
  lemma ReviewIsBuilt(h: Host, w: World, p: Plan, keys: seq<string>, now: int)
    requires Collates(h) && BuildTargetSet(h, w, p, keys, now).Ok?
    ensures var ts := BuildTargetSet(h, w, p, keys, now).value;
            && ts.planId == p.id && ts.system == p.system && ts.action == p.action && ts.targets != []
            && Built(h, ts.targets)
            && TitlesCurrent(w, p.system, TitleField(w, p.system, p.action), ts.targets)
    ensures forall k <- NormalKeys(keys) :: TitleOf(w, p.system, TitleField(w, p.system, p.action), k).Some?
    ensures var made := MakeTargets(h, w, p.system, TitleField(w, p.system, p.action), NormalKeys(keys));
            Sorted(h, made) ==> BuildTargetSet(h, w, p, keys, now).value.targets == made
  {
    NormalKeysIsNormal(keys);
    var titleField := TitleField(w, p.system, p.action);
    MadeIsBuildable(h, w, p.system, titleField, NormalKeys(keys));
    var made := MakeTargets(h, w, p.system, titleField, NormalKeys(keys));
    SortBuilds(h, made);
    SortSorts(h, made);
    assert made[0] in SortByKey(h, made);
  }

  // ----- what equal target-set hashes mean -----

  /** Two staged lists that agree key by key and title by title once normalised. */
  ghost predicate SameUnderNfc(h: Host, a: seq<(string, string)>, b: seq<(string, string)>) {
    |a| == |b| && forall i :: 0 <= i < |a| ==> h.nfc(a[i].0) == h.nfc(b[i].0) && h.nfc(a[i].1) == h.nfc(b[i].1)
  }

  /** `hash` is the hash of some target set whose stable part is that of `ts`. */
  ghost predicate Pins(h: Host, hash: Option<Hash>, ts: seq<Target>) {
    hash.Some? && hash.value.preimage.CTargetSet? && hash.value.preimage.targets == StableTargets(h, ts)
  }

  lemma EqualPinsAgree(h: Host, hash: Option<Hash>, a: seq<Target>, b: seq<Target>)
    requires Pins(h, hash, a) && Pins(h, hash, b) && WellBound(h, a) && WellBound(h, b)
    ensures SameUnderNfc(h, Staged(a), Staged(b))
  {
    assert |a| == |StableTargets(h, a)| == |b|;
    forall i | 0 <= i < |a|
      ensures h.nfc(a[i].key) == h.nfc(b[i].key) && h.nfc(a[i].title) == h.nfc(b[i].title)
    {
      assert StableTargets(h, a)[i] == StableTargets(h, b)[i];
      assert a[i] in a && b[i] in b;
    }
  }

  /** The database holds, for every staged key, the staged title (up to NFC). */
  ghost predicate MatchesDatabase(h: Host, w: World, system: string, action: string, staged: seq<(string, string)>) {
    forall i :: 0 <= i < |staged| ==>
      var current := TitleOf(w, system, TitleField(w, system, action), staged[i].0);
      current.Some? && h.nfc(current.value) == h.nfc(staged[i].1)
  }

  /** The database still says, up to NFC, what the reviewer saw: every title and every summary. */
  ghost predicate ReviewCurrent(h: Host, w: World, system: string, action: string, ts: seq<Target>) {
    forall i :: 0 <= i < |ts| ==>
      var current := TitleOf(w, system, TitleField(w, system, action), ts[i].key);
      && current.Some? && h.nfc(current.value) == h.nfc(ts[i].title)
      && h.nfc(SummaryOf(w, system, ts[i].key)) == h.nfc(ts[i].summary)
  }

  /** Re-reading the keys of a built list in the current database gives a list with the same keys, in order. */
  lemma RebuildKeepsOrder(h: Host, w: World, p: Plan, stored: seq<Target>, now: int)
    requires Collates(h) && Built(h, stored) && BuildTargetSet(h, w, p, KeysOf(stored), now).Ok?
    ensures var made := BuildTargetSet(h, w, p, KeysOf(stored), now).value.targets;
            && |made| == |stored|
            && forall i :: 0 <= i < |made| ==>
                 && made[i].key == stored[i].key
                 && TitleOf(w, p.system, TitleField(w, p.system, p.action), made[i].key) == Some(made[i].title)
                 && made[i].titleHash == HashText(h, made[i].title)
                 && made[i].summaryHash == HashText(h, SummaryOf(w, p.system, made[i].key))
  {
    KeysAreNormal(h, stored);
    var keys := KeysOf(stored);
    NormalKeysIsNormal(keys);
    ReviewIsBuilt(h, w, p, keys, now);
    var titleField := TitleField(w, p.system, p.action);
    MadeIsBuildable(h, w, p.system, titleField, keys);
    var made := MakeTargets(h, w, p.system, titleField, keys);
    assert Sorted(h, made) by {
      forall i | 0 <= i < |made| - 1 ensures h.precedes(made[i].key, made[i + 1].key) {
        assert h.precedes(stored[i].key, stored[i + 1].key);
      }
    }
    assert forall i :: 0 <= i < |made| ==> made[i] in made;
  }

  lemma KeysAreNormal(h: Host, stored: seq<Target>)
    requires Built(h, stored)
    ensures NormalForm(KeysOf(stored))
  {
    forall k | k in KeysOf(stored) ensures CleanKey(k) {
      var i :| 0 <= i < |stored| && k == stored[i].key;
      assert stored[i] in stored;
    }
  }

  lemma VerifyMeansCurrent(h: Host, w: World, p: Plan, now: int)
    requires Collates(h) && TargetsOk(h, p) && p.targets.Some? && VerifyTargetSet(h, w, p, now).None?
    ensures ReviewCurrent(h, w, p.system, p.action, p.targets.value.targets)
  {
    var stored := p.targets.value.targets;
    RebuildKeepsOrder(h, w, p, stored, now);
    var made := BuildTargetSet(h, w, p, KeysOf(stored), now).value.targets;
    hide BuildTargetSet, TitleOf, SummaryOf, Sorted;
    forall i | 0 <= i < |stored|
      ensures StableTargets(h, stored)[i] == StableTargets(h, made)[i] && stored[i] in stored
    {}
  }

  lemma KeysHaveTitles(h: Host, w: World, p: Plan, stored: seq<Target>, now: int)
    requires Built(h, stored) && stored != [] && ReviewCurrent(h, w, p.system, p.action, stored)
    ensures BuildTargetSet(h, w, p, KeysOf(stored), now).Ok?
  {
    var keys := KeysOf(stored);
    KeysAreNormal(h, stored);
    NormalKeysIsNormal(keys);
    hide NormalKeys, TitleOf, SummaryOf, SortByKey, MakeTargets, NormalForm;
    assert keys[0] == stored[0].key;
    forall k | k in keys ensures TitleOf(w, p.system, TitleField(w, p.system, p.action), k).Some? {
      var i :| 0 <= i < |keys| && k == keys[i];
      assert stored[i].key == k;
    }
  }

  lemma CurrentVerifies(h: Host, w: World, p: Plan, now: int)
    requires Collates(h) && TargetsOk(h, p) && p.targets.Some?
    requires ReviewCurrent(h, w, p.system, p.action, p.targets.value.targets)
    ensures VerifyTargetSet(h, w, p, now).None?
  {
    var stored := p.targets.value.targets;
    KeysHaveTitles(h, w, p, stored, now);
    RebuildKeepsOrder(h, w, p, stored, now);
    BuiltFields(h, w, p, KeysOf(stored), now);
    hide BuildTargetSet, TitleOf, SummaryOf, Sorted;
    var made := BuildTargetSet(h, w, p, KeysOf(stored), now).value.targets;
    assert StableTargets(h, made) == StableTargets(h, stored) by {
      forall i | 0 <= i < |stored| ensures StableTargets(h, made)[i] == StableTargets(h, stored)[i] {
        assert stored[i] in stored;
      }
    }
  }

  lemma BuiltFields(h: Host, w: World, p: Plan, keys: seq<string>, now: int)
    ensures BuildTargetSet(h, w, p, keys, now).Ok?
            ==> var ts := BuildTargetSet(h, w, p, keys, now).value;
                ts.planId == p.id && ts.system == p.system && ts.action == p.action
  {
    hide NormalKeys, TitleOf, SortByKey;
  }

  /** A reviewed plan passes re-verification exactly when the database still says what was reviewed. */
  lemma VerifyIffCurrent(h: Host, w: World, p: Plan, now: int)
    requires Collates(h) && TargetsOk(h, p) && p.targets.Some?
    ensures VerifyTargetSet(h, w, p, now).None?
            <==> ReviewCurrent(h, w, p.system, p.action, p.targets.value.targets)
  {
    hide VerifyTargetSet, ReviewCurrent, TargetsOk;
    if VerifyTargetSet(h, w, p, now).None? { VerifyMeansCurrent(h, w, p, now); }
    if ReviewCurrent(h, w, p.system, p.action, p.targets.value.targets) { CurrentVerifies(h, w, p, now); }
  }

  // ----- the invariant -----

  predicate Ended(s: State, i: nat) { i < s.settled }

  ghost predicate QueueOk(s: State) {
    s.settled <= |s.jobs| && forall i :: 0 <= i < |s.jobs| ==> (s.jobs[i].ending == Waiting <==> s.settled <= i)
  }

  ghost predicate JobOk(h: Host, s: State, j: Job) {
    && j.planId in s.plans && j.planHash == s.plans[j.planId].planHash
    && (j.stage != Read ==>
          Built(h, j.targets) && Pins(h, j.targetSetHash, j.targets) && s.plans[j.planId].targetSetHash.Some?)
  }

  /** Job `d` is a finished, all-`dry-ok` dry run of plan `id` under exactly these hashes. */
  ghost predicate VouchingJob(s: State, d: nat, id: string, planHash: Hash, targetSetHash: Option<Hash>) {
    && d < s.settled <= |s.jobs|
    && s.jobs[d].planId == id && s.jobs[d].stage == Dry
    && s.jobs[d].planHash == planHash && s.jobs[d].targetSetHash == targetSetHash
    && s.jobs[d].ending.Finished? && s.jobs[d].ending.outcome.done && AllDryOk(s.jobs[d].ending.outcome.results)
  }

  ghost predicate LiveAt(s: State, i: nat, id: string) {
    i < |s.jobs| && s.jobs[i].planId == id && s.jobs[i].stage == Live
  }

  ghost predicate TargetsOk(h: Host, p: Plan) {
    && (p.targets.Some? <==> p.targetSetHash.Some?)
    && (p.targets.Some? ==>
          && Built(h, p.targets.value.targets) && p.targets.value.targets != []
          && p.targets.value.planId == p.id && p.targets.value.system == p.system && p.targets.value.action == p.action
          && p.targetSetHash == Some(HashTargetSet(h, p.targets.value)))
  }

  ghost predicate DryRunOk(s: State, p: Plan) {
    && (p.status == AwaitingConfirmation ==> DryRunPassed(p))
    && (p.dryRun.Some? && p.dryRun.value.status == Passed ==>
          && p.dryRun.value.jobId.Some? && p.dryRun.value.targetSetHash.Some?
          && VouchingJob(s, p.dryRun.value.jobId.value, p.id, p.planHash, p.dryRun.value.targetSetHash))
  }

  ghost predicate LiveOk(s: State, p: Plan) {
    && (p.confirmation.None? ==> forall i: nat :: !LiveAt(s, i, p.id))
    && (forall i: nat :: LiveAt(s, i, p.id) ==>
          && (forall k :: 0 <= k < |s.jobs| && s.jobs[k].planId == p.id && k != i ==> k < i)
          && (Ended(s, i) && s.jobs[i].ending.Finished? ==> p.status in {Succeeded, Failed} && p.jobId == Some(i)))
  }

  ghost predicate PlanOk(h: Host, s: State, p: Plan) {
    TargetsOk(h, p) && DryRunOk(s, p) && LiveOk(s, p)
  }

  ghost predicate Inv(h: Host, s: State) {
    && QueueOk(s)
    && (forall i :: 0 <= i < |s.jobs| ==> JobOk(h, s, s.jobs[i]))
    && (forall id :: id in s.plans ==> s.plans[id].id == id && PlanOk(h, s, s.plans[id]))
  }

  /** A later version of the same plan row: its hash is fixed and a review is never withdrawn. */
  predicate Continues(p: Plan, q: Plan) {
    q.id == p.id && q.planHash == p.planHash && (p.targetSetHash.Some? ==> q.targetSetHash.Some?)
  }

  lemma ApplyKeepsPlan(h: Host, s: State, p: Plan, ts: TargetSet)
    requires PlanOk(h, s, p) && CanEditTargets(p)
    requires Built(h, ts.targets) && ts.targets != [] && ts.planId == p.id && ts.system == p.system && ts.action == p.action
    ensures var q := ApplyTargets(h, p, ts);
            PlanOk(h, s, q) && Continues(p, q) && CanEditTargets(q)
  {}

  lemma ReviewKeepsPlan(h: Host, s: State, p: Plan, keys: seq<string>, now: int)
    requires Collates(h) && PlanOk(h, s, p) && SaveTargets(h, s.world, p, keys, now).Ok?
    ensures var q := SaveTargets(h, s.world, p, keys, now).value;
            PlanOk(h, s, q) && Continues(p, q) && CanEditTargets(q)
  {
    ReviewIsBuilt(h, s.world, p, keys, now);
    ApplyKeepsPlan(h, s, p, BuildTargetSet(h, s.world, p, keys, now).value);
  }

  /** Replacing one plan row by a good one keeps the invariant. */
  lemma PutKeeps(h: Host, s: State, p: Plan)
    requires Inv(h, s) && PlanOk(h, s, p)
    requires p.id in s.plans ==> Continues(s.plans[p.id], p)
    ensures Inv(h, Put(s, p))
  {
    var t := Put(s, p);
    forall i | 0 <= i < |t.jobs| ensures JobOk(h, t, t.jobs[i]) { assert JobOk(h, s, s.jobs[i]); }
    forall id | id in t.plans ensures t.plans[id].id == id && PlanOk(h, t, t.plans[id]) {
      PlanOkDependsOnJobs(h, s, t, t.plans[id]);
    }
  }

  lemma PlanOkDependsOnJobs(h: Host, s: State, t: State, p: Plan)
    requires s.jobs == t.jobs && s.settled == t.settled && PlanOk(h, s, p)
    ensures PlanOk(h, t, p)
  {
    forall i: nat ensures LiveAt(s, i, p.id) == LiveAt(t, i, p.id) {}
  }

  lemma EnqueueKeepsJobs(h: Host, s: State, p: Plan, stage: Stage, q: Plan)
    requires Inv(h, s) && p.id in s.plans && Continues(s.plans[p.id], p) && PlanOk(h, s, p)
    requires stage != Read ==> p.targets.Some?
    requires q.id == p.id && q.planHash == p.planHash && q.targetSetHash == p.targetSetHash
    ensures var t := Put(Enqueued(s, p, stage), q);
            QueueOk(t) && forall i :: 0 <= i < |t.jobs| ==> JobOk(h, t, t.jobs[i])
  {
    var t := Put(Enqueued(s, p, stage), q);
    forall i | 0 <= i < |t.jobs| ensures JobOk(h, t, t.jobs[i]) {
      if i < |s.jobs| { assert JobOk(h, s, s.jobs[i]); }
    }
  }

  /** Appending a job: the plan it belongs to must be unconfirmed; the others do not notice. */
  lemma EnqueueKeeps(h: Host, s: State, p: Plan, stage: Stage, q: Plan)
    requires Inv(h, s) && p.id in s.plans && Continues(s.plans[p.id], p) && PlanOk(h, s, p)
    requires p.confirmation.None?
    requires stage != Read ==> p.targets.Some?
    requires q.id == p.id && q.system == p.system && q.action == p.action
    requires q.planHash == p.planHash && q.targets == p.targets && q.targetSetHash == p.targetSetHash
    requires q.status in {DryRunning, Queued} && q.dryRun == p.dryRun
    requires stage == Live ==> q.confirmation.Some?
    ensures Inv(h, Put(Enqueued(s, p, stage), q))
  {
    var t := Put(Enqueued(s, p, stage), q);
    EnqueueKeepsJobs(h, s, p, stage, q);
    hide PlanOk, QueueOk, JobOk;
    forall id | id in t.plans ensures t.plans[id].id == id && PlanOk(h, t, t.plans[id]) {
      if id == p.id { EnqueueKeepsOwn(h, s, p, stage, q); } else { EnqueueKeepsOther(h, s, p, stage, q, s.plans[id]); }
    }
  }

  lemma EnqueueKeepsDryRun(s: State, p: Plan, stage: Stage, q: Plan, r: Plan, r': Plan)
    requires DryRunOk(s, r) && r'.id == r.id && r'.planHash == r.planHash && r'.dryRun == r.dryRun
    requires r'.targetSetHash == r.targetSetHash && (r' == r || r'.status != AwaitingConfirmation)
    ensures DryRunOk(Put(Enqueued(s, p, stage), q), r')
  {
    hide AllDryOk;
    var t := Put(Enqueued(s, p, stage), q);
    if r.dryRun.Some? && r.dryRun.value.status == Passed {
      assert t.jobs[r.dryRun.value.jobId.value] == s.jobs[r.dryRun.value.jobId.value];
    }
  }

  lemma EnqueueKeepsOwn(h: Host, s: State, p: Plan, stage: Stage, q: Plan)
    requires PlanOk(h, s, p) && p.confirmation.None? && QueueOk(s)
    requires q.id == p.id && q.system == p.system && q.action == p.action
    requires q.planHash == p.planHash && q.targets == p.targets && q.targetSetHash == p.targetSetHash
    requires q.status in {DryRunning, Queued} && q.dryRun == p.dryRun
    requires stage == Live ==> q.confirmation.Some?
    ensures PlanOk(h, Put(Enqueued(s, p, stage), q), q)
  {
    EnqueueKeepsDryRun(s, p, stage, q, p, q);
    hide Built, DryRunOk;
    var t := Put(Enqueued(s, p, stage), q);
    assert forall i: nat :: !LiveAt(s, i, p.id);
    forall i: nat ensures LiveAt(t, i, q.id) ==> i == |s.jobs| && stage == Live {
      assert i < |s.jobs| ==> LiveAt(t, i, q.id) == LiveAt(s, i, p.id);
    }
  }

  lemma EnqueueKeepsOther(h: Host, s: State, p: Plan, stage: Stage, q: Plan, r: Plan)
    requires PlanOk(h, s, r) && r.id != p.id && QueueOk(s)
    ensures PlanOk(h, Put(Enqueued(s, p, stage), q), r)
  {
    EnqueueKeepsDryRun(s, p, stage, q, r, r);
    hide TargetsOk, DryRunOk;
    var t := Put(Enqueued(s, p, stage), q);
    forall i: nat ensures LiveAt(t, i, r.id) == LiveAt(s, i, r.id) {}
  }

  lemma StartReadKeeps(h: Host, s: State, p: Plan)
    requires Inv(h, s) && p.id in s.plans && Continues(s.plans[p.id], p) && PlanOk(h, s, p)
    requires p.confirmation.None?
    ensures Inv(h, StartRead(s, p))
  {
    if p.action == "query" {
      var q := p.(status := Succeeded,
                  dryRun := Some(DryRun(ReadSucceeded, None, None, Some(Sha256(CNothing)), None, None)));
      PutKeeps(h, s, q);
    } else {
      EnqueueKeeps(h, s, p, Read, p.(status := Queued, jobId := Some(|s.jobs|)));
    }
  }

  lemma DryRunHasTargets(h: Host, w: World, p: Plan, now: int)
    requires DryRunRefusal(h, w, p, now).None?
    ensures p.targets.Some?
  {}

  lemma StartDryRunKeeps(h: Host, s: State, p: Plan, planHash: Option<Hash>, keys: Option<seq<string>>, now: int)
    requires Collates(h) && Inv(h, s) && p.id in s.plans && s.plans[p.id] == p
    ensures Inv(h, StartDryRunStep(h, s, p, planHash, keys, now).0)
  {
    if CheckPlanHash(p, planHash).None? && CanEditTargets(p) {
      assert PlanOk(h, s, p);
      hide Inv, PlanOk, SaveTargets, DryRunRefusal;
      var saved := if keys.Some? then SaveTargets(h, s.world, p, keys.value, now) else Ok(p);
      if saved.Ok? {
        var working := saved.value;
        if keys.Some? {
          ReviewKeepsPlan(h, s, p, keys.value, now);
          PutKeeps(h, s, working);
        }
        var s1 := if keys.Some? then Put(s, working) else s;
        PlanOkDependsOnJobs(h, s, s1, working);
        if working.readOnly {
          StartReadKeeps(h, s1, working);
        } else if DryRunRefusal(h, s.world, working, now).None? {
          DryRunHasTargets(h, s.world, working, now);
          EnqueueKeeps(h, s1, working, Dry, working.(status := DryRunning, jobId := Some(|s.jobs|)));
        }
      }
    }
  }

  /** `t` is `s` after its next job has ended, whatever happened to the plan rows. */
  ghost predicate Settled(s: State, t: State, e: Ending) {
    && s.settled < |s.jobs| && e != Waiting
    && t.jobs == s.jobs[s.settled := s.jobs[s.settled].(ending := e)] && t.settled == s.settled + 1
  }

  lemma VouchingSurvives(s: State, t: State, e: Ending, d: nat, id: string, ph: Hash, th: Option<Hash>)
    requires Settled(s, t, e) && VouchingJob(s, d, id, ph, th)
    ensures VouchingJob(t, d, id, ph, th)
  {
    assert t.jobs[d] == s.jobs[d];
  }

  /** A plan row that is not touched survives the end of another plan's job, or a job ending unreported. */
  lemma SettleKeepsPlan(h: Host, s: State, t: State, e: Ending, p: Plan)
    requires Settled(s, t, e) && PlanOk(h, s, p)
    requires s.jobs[s.settled].planId != p.id || e == Dropped
    ensures PlanOk(h, t, p)
  {
    forall i: nat ensures LiveAt(t, i, p.id) == LiveAt(s, i, p.id) {}
    if p.dryRun.Some? && p.dryRun.value.status == Passed {
      VouchingSurvives(s, t, e, p.dryRun.value.jobId.value, p.id, p.planHash, p.dryRun.value.targetSetHash);
    }
  }

  /** Only the last job of a plan can be live, so a completed job is live or comes before every live one. */
  lemma CompletionKeepsLive(s: State, t: State, o: Outcome, p: Plan, expected: string)
    requires Settled(s, t, Finished(o)) && LiveOk(s, p) && s.jobs[s.settled].planId == p.id
    ensures LiveOk(t, Completed(p, s.jobs[s.settled], s.settled, o, expected))
  {
    forall i: nat ensures LiveAt(t, i, p.id) == LiveAt(s, i, p.id) {}
    forall i: nat | LiveAt(s, i, p.id) ensures i >= s.settled {
      assert s.settled != i ==> s.settled < i;
    }
  }

  lemma CompletionKeepsDryRun(s: State, t: State, o: Outcome, p: Plan, expected: string)
    requires Settled(s, t, Finished(o)) && DryRunOk(s, p)
    requires var j := s.jobs[s.settled]; j.planId == p.id && j.planHash == p.planHash && (j.stage == Dry ==> j.targetSetHash.Some? && p.targetSetHash.Some?)
    ensures DryRunOk(t, Completed(p, s.jobs[s.settled], s.settled, o, expected))
  {
    var j := s.jobs[s.settled];
    var q := Completed(p, j, s.settled, o, expected);
    if j.stage == Dry {
      if q.dryRun.value.status == Passed {
        assert VouchingJob(t, s.settled, p.id, p.planHash, j.targetSetHash);
      }
    } else if j.stage == Live && p.dryRun.Some? && p.dryRun.value.status == Passed {
      VouchingSurvives(s, t, Finished(o), p.dryRun.value.jobId.value, p.id, p.planHash, p.dryRun.value.targetSetHash);
    }
  }

  lemma SettleKeepsJobs(h: Host, s: State, t: State, e: Ending)
    requires Inv(h, s) && Settled(s, t, e)
    requires t.plans.Keys == s.plans.Keys && forall id :: id in s.plans ==> Continues(s.plans[id], t.plans[id])
    ensures QueueOk(t) && forall i :: 0 <= i < |t.jobs| ==> JobOk(h, t, t.jobs[i])
  {
    forall i | 0 <= i < |t.jobs| ensures JobOk(h, t, t.jobs[i]) { assert JobOk(h, s, s.jobs[i]); }
  }

  lemma FinishKeeps(h: Host, s: State, o: Outcome, expected: string)
    requires Inv(h, s) && s.settled < |s.jobs|
    ensures Inv(h, FinishStep(s, o, expected))
  {
    var t := FinishStep(s, o, expected);
    var j := s.jobs[s.settled];
    assert JobOk(h, s, j);
    assert PlanOk(h, s, s.plans[j.planId]);
    SettleKeepsJobs(h, s, t, Finished(o));
    forall id | id in t.plans ensures t.plans[id].id == id && PlanOk(h, t, t.plans[id]) {
      if id == j.planId {
        CompletionKeepsPlan(h, s, t, o, s.plans[id], expected);
      } else {
        SettleKeepsPlan(h, s, t, Finished(o), s.plans[id]);
      }
    }
  }

  lemma CompletionKeepsPlan(h: Host, s: State, t: State, o: Outcome, p: Plan, expected: string)
    requires Settled(s, t, Finished(o)) && PlanOk(h, s, p) && JobOk(h, s, s.jobs[s.settled])
    requires s.jobs[s.settled].planId == p.id && p.id in s.plans && s.plans[p.id] == p
    requires s.jobs[s.settled].stage == Dry ==> p.targetSetHash.Some?
    ensures PlanOk(h, t, Completed(p, s.jobs[s.settled], s.settled, o, expected))
  {
    CompletionKeepsLive(s, t, o, p, expected);
    CompletionKeepsDryRun(s, t, o, p, expected);
  }

  lemma DropKeeps(h: Host, s: State)
    requires Inv(h, s) && s.settled < |s.jobs|
    ensures Inv(h, DropStep(s))
  {
    var t := DropStep(s);
    SettleKeepsJobs(h, s, t, Dropped);
    forall id | id in t.plans ensures t.plans[id].id == id && PlanOk(h, t, t.plans[id]) {
      SettleKeepsPlan(h, s, t, Dropped, s.plans[id]);
    }
  }

  lemma ConfirmKeeps(h: Host, s: State, p: Plan, planHash: Option<Hash>, human: bool, th: Option<Hash>, dh: Option<Hash>, now: int)
    requires Inv(h, s) && p.id in s.plans && s.plans[p.id] == p
    requires ConfirmRefusal(h, s.world, p, planHash, human, th, dh, now).None?
    ensures Inv(h, Confirmed(s, p, now))
  {
    EnqueueKeeps(h, s, p, Live, p.(status := Queued,
      confirmation := Some(Confirmation(now, |s.jobs|, p.dryRun.value.hash)), jobId := Some(|s.jobs|)));
  }

  lemma CreateKeeps(h: Host, s: State, id: string, system: string, action: string)
    requires Inv(h, s) && id !in s.plans
    ensures Inv(h, Put(s, NewPlan(h, s.world, id, system, action)))
  {
    var p := NewPlan(h, s.world, id, system, action);
    assert forall i :: 0 <= i < |s.jobs| ==> JobOk(h, s, s.jobs[i]);
    PutKeeps(h, s, p);
  }

  lemma SyncKeeps(h: Host, s: State, w: World)
    requires Inv(h, s)
    ensures Inv(h, s.(world := w))
  {
    var t := s.(world := w);
    forall i | 0 <= i < |t.jobs| ensures JobOk(h, t, t.jobs[i]) { assert JobOk(h, s, s.jobs[i]); }
    forall id | id in t.plans ensures t.plans[id].id == id && PlanOk(h, t, t.plans[id]) {
      PlanOkDependsOnJobs(h, s, t, t.plans[id]);
    }
  }

  lemma StepKeeps(h: Host, s: State, e: Event)
    requires Collates(h) && Inv(h, s)
    ensures Inv(h, Step(h, s, e))
  {
    match e
    case Sync(w) => SyncKeeps(h, s, w);
    case Create(id, system, action) => if id !in s.plans { CreateKeeps(h, s, id, system, action); }
    case ReviewTargets(id, planHash, keys, now) =>
      if id in s.plans && SaveTargets(h, s.world, s.plans[id], keys, now).Ok? {
        ReviewKeepsPlan(h, s, s.plans[id], keys, now);
        PutKeeps(h, s, SaveTargets(h, s.world, s.plans[id], keys, now).value);
      }
    case StartDryRun(id, planHash, keys, now) =>
      if id in s.plans { StartDryRunKeeps(h, s, s.plans[id], planHash, keys, now); }
    case Confirm(id, planHash, human, th, dh, now) =>
      if id in s.plans && ConfirmRefusal(h, s.world, s.plans[id], planHash, human, th, dh, now).None? {
        ConfirmKeeps(h, s, s.plans[id], planHash, human, th, dh, now);
      }
    case FinishJob(o, expected) => if s.settled < |s.jobs| { FinishKeeps(h, s, o, expected); }
    case DropJob => if s.settled < |s.jobs| { DropKeeps(h, s); }
  }

  lemma {:induction false} RunKeeps(h: Host, s: State, events: seq<Event>)
    requires Collates(h) && Inv(h, s)
    ensures Inv(h, Run(h, s, events))
  {
    if events != [] {
      RunKeeps(h, s, events[..|events| - 1]);
      StepKeeps(h, Run(h, s, events[..|events| - 1]), events[|events| - 1]);
    }
  }

  // ----- what every run guarantees -----

  lemma ReachableIsSafe(h: Host, w: World, events: seq<Event>)
    requires Collates(h)
    ensures Inv(h, Run(h, Start(w), events))
  {
    RunKeeps(h, Start(w), events);
  }

  /** Whatever happens, in any order: one plan, at most one live job. */
  lemma AtMostOneLiveJob(h: Host, w: World, events: seq<Event>, id: string, i: nat, k: nat)
    requires Collates(h)
    requires var s := Run(h, Start(w), events); LiveAt(s, i, id) && LiveAt(s, k, id)
    ensures i == k
  {
    ReachableIsSafe(h, w, events);
    var s := Run(h, Start(w), events);
    assert JobOk(h, s, s.jobs[i]) && PlanOk(h, s, s.plans[id]);
    assert i != k ==> k < i && i < k;
  }

  /** A plan waits for confirmation only while a passed dry run of its current target set stands. */
  lemma AwaitingMeansPassed(h: Host, w: World, events: seq<Event>, id: string)
    requires Collates(h)
    requires var s := Run(h, Start(w), events); id in s.plans && s.plans[id].status == AwaitingConfirmation
    ensures DryRunPassed(Run(h, Start(w), events).plans[id])
  {
    ReachableIsSafe(h, w, events);
    assert PlanOk(h, Run(h, Start(w), events), Run(h, Start(w), events).plans[id]);
  }

  /** The step from `s` to `t` put a live job of plan `id` in the queue. */
  ghost predicate GoesLive(s: State, t: State, id: string) {
    |t.jobs| == |s.jobs| + 1 && LiveAt(t, |s.jobs|, id)
  }

  lemma OnlyConfirmGoesLive(h: Host, s: State, e: Event, id: string)
    requires GoesLive(s, Step(h, s, e), id)
    ensures e.Confirm? && e.humanConfirm
    ensures e.id in s.plans && Step(h, s, e) == Confirmed(s, s.plans[e.id], e.now) && s.plans[e.id].id == id
    ensures ConfirmRefusal(h, s.world, s.plans[e.id], e.planHash, e.humanConfirm, e.targetSetHash, e.dryRunHash, e.now).None?
  {}

  /** The action's recipe is the one the plan was made for; a read action has none. */
  ghost predicate RecipeStands(h: Host, w: World, p: Plan) {
    if IsReadAction(p.action) then p.recipeActionHash.None?
    else (p.system, p.action) in w.actions
         && p.recipeActionHash in {None, Some(ActionHash(h, p.action, w.actions[(p.system, p.action)]))}
  }

  /** The review that a plan holds says what the database says now. */
  ghost predicate ReviewStands(h: Host, w: World, p: Plan) {
    p.targets.Some? && ReviewCurrent(h, w, p.system, p.action, p.targets.value.targets)
  }

  lemma VerifyIffStands(h: Host, w: World, p: Plan, now: int)
    requires Collates(h) && TargetsOk(h, p)
    ensures VerifyTargetSet(h, w, p, now).None? <==> ReviewStands(h, w, p)
  {
    if p.targets.Some? { VerifyIffCurrent(h, w, p, now); }
  }

  /** Exactly which confirm requests are accepted. */
  lemma ConfirmAcceptedIff(h: Host, w: World, p: Plan, planHash: Option<Hash>, human: bool, th: Option<Hash>, dh: Option<Hash>, now: int)
    requires Collates(h) && TargetsOk(h, p)
    ensures ConfirmRefusal(h, w, p, planHash, human, th, dh, now).None?
            <==> (planHash == Some(p.planHash) && human && p.confirmation.None? && th.Some? && th == p.targetSetHash
                  && p.status == AwaitingConfirmation && DryRunPassed(p)
                  && dh.Some? && (p.dryRun.value.hash.Some? ==> dh == p.dryRun.value.hash)
                  && RecipeStands(h, w, p) && ReviewStands(h, w, p) && p.system in w.launchable)
  {
    VerifyIffStands(h, w, p, now);
    hide VerifyTargetSet, ReviewStands, TargetsOk, DryRunPassed, IsReadAction, ActionHash;
  }

  /** Exactly which dry-run requests of a plan that writes enqueue a dry run, when the request brings no new keys. */
  lemma DryRunAcceptedIff(h: Host, s: State, p: Plan, planHash: Option<Hash>, now: int)
    requires Collates(h) && TargetsOk(h, p) && !p.readOnly
    ensures StartDryRunStep(h, s, p, planHash, None, now).1.None?
            <==> (planHash == Some(p.planHash) && p.confirmation.None?
                  && p.status in {Planned, DryFailed, DryRunning, AwaitingConfirmation}
                  && RecipeStands(h, s.world, p) && ReviewStands(h, s.world, p) && p.system in s.world.launchable)
  {
    VerifyIffStands(h, s.world, p, now);
    hide VerifyTargetSet, ReviewStands, TargetsOk, IsReadAction, ActionHash;
  }

  /** What the gates of an accepted confirm request say about the stored plan. */
  lemma AcceptedConfirm(h: Host, s: State, p: Plan, e: Event) returns (d: nat)
    requires Collates(h) && Inv(h, s) && e.Confirm? && p.id in s.plans && s.plans[p.id] == p
    requires ConfirmRefusal(h, s.world, p, e.planHash, e.humanConfirm, e.targetSetHash, e.dryRunHash, e.now).None?
    ensures p.targets.Some? && forall i: nat :: !LiveAt(s, i, p.id)
    ensures p.dryRun.Some? && p.dryRun.value.jobId == Some(d)
    ensures VouchingJob(s, d, p.id, p.planHash, p.targetSetHash)
    ensures e.planHash == Some(p.planHash) && e.targetSetHash == p.targetSetHash && e.targetSetHash.Some?
    ensures e.dryRunHash.Some? && (p.dryRun.value.hash.Some? ==> e.dryRunHash == p.dryRun.value.hash)
    ensures RecipeStands(h, s.world, p) && p.system in s.world.launchable
    ensures SameUnderNfc(h, Staged(s.jobs[d].targets), Staged(p.targets.value.targets))
    ensures ReviewCurrent(h, s.world, p.system, p.action, p.targets.value.targets)
  {
    assert PlanOk(h, s, p);
    ConfirmAcceptedIff(h, s.world, p, e.planHash, e.humanConfirm, e.targetSetHash, e.dryRunHash, e.now);
    assert VerifyTargetSet(h, s.world, p, e.now).None? && DryRunPassed(p);
    hide ConfirmRefusal, RecipeStands, VerifyTargetSet;
    d := p.dryRun.value.jobId.value;
    assert JobOk(h, s, s.jobs[d]);
    EqualPinsAgree(h, p.targetSetHash, s.jobs[d].targets, p.targets.value.targets);
    VerifyIffCurrent(h, s.world, p, e.now);
  }

  lemma CurrentMatchesDatabase(h: Host, w: World, system: string, action: string, ts: seq<Target>)
    requires ReviewCurrent(h, w, system, action, ts)
    ensures MatchesDatabase(h, w, system, action, Staged(ts))
  {}

  /**
  The headline guarantee. When a run of the protocol enqueues a live job, a human confirmed under the stored hashes,
  the action's recipe is unchanged, and no earlier live job of the plan exists. The recorded dry run, bound to the same
  plan hash and target-set hash, has finished with every result `dry-ok`; and the `(key, title)` list staged live is,
  up to NFC, both the list that dry run staged and what the database holds at this moment.
  */
  lemma LiveRunIsVouchedFor(h: Host, w: World, events: seq<Event>, e: Event, id: string) returns (d: nat)
    requires Collates(h)
    requires GoesLive(Run(h, Start(w), events), Step(h, Run(h, Start(w), events), e), id)
    ensures var s := Run(h, Start(w), events);
            var live := Step(h, s, e).jobs[|s.jobs|];
            && e.Confirm? && e.humanConfirm && id in s.plans
            && e.planHash == Some(live.planHash) && e.targetSetHash == live.targetSetHash && e.targetSetHash.Some?
            && s.plans[id].dryRun.Some? && s.plans[id].dryRun.value.jobId == Some(d) && e.dryRunHash.Some?
            && (s.plans[id].dryRun.value.hash.Some? ==> e.dryRunHash == s.plans[id].dryRun.value.hash)
            && RecipeStands(h, s.world, s.plans[id]) && s.plans[id].system in s.world.launchable
            && (forall i: nat :: !LiveAt(s, i, id))
            && VouchingJob(s, d, id, live.planHash, live.targetSetHash)
            && SameUnderNfc(h, Staged(s.jobs[d].targets), Staged(live.targets))
            && MatchesDatabase(h, s.world, s.plans[id].system, s.plans[id].action, Staged(live.targets))
  {
    var s := Run(h, Start(w), events);
    ReachableIsSafe(h, w, events);
    OnlyConfirmGoesLive(h, s, e, id);
    var p := s.plans[id];
    d := AcceptedConfirm(h, s, p, e);
    CurrentMatchesDatabase(h, s.world, p.system, p.action, p.targets.value.targets);
  }

  /** A request for one plan, or a creation, leaves a confirmed plan's row alone. */
  lemma RequestsLeaveConfirmedPlan(h: Host, s: State, e: Event, id: string)
    requires id in s.plans && s.plans[id].confirmation.Some? && forall k :: k in s.plans ==> s.plans[k].id == k
    requires !e.FinishJob? && !e.DropJob?
    ensures var t := Step(h, s, e);
            && id in t.plans && t.plans[id] == s.plans[id] && t.settled == s.settled
            && |t.jobs| >= |s.jobs| && t.jobs[..|s.jobs|] == s.jobs
  {
    if e.StartDryRun? && e.id in s.plans && e.id != id {
      DryRunIsAboutOnePlan(h, s, s.plans[e.id], e.planHash, e.newKeys, e.now, id);
    }
  }

  lemma ReviewKeepsId(h: Host, w: World, p: Plan, keys: seq<string>, now: int)
    ensures SaveTargets(h, w, p, keys, now).Ok? ==> SaveTargets(h, w, p, keys, now).value.id == p.id
  {
    hide BuildTargetSet, CanEditTargets;
  }

  lemma DryRunIsAboutOnePlan(h: Host, s: State, p: Plan, planHash: Option<Hash>, keys: Option<seq<string>>, now: int, id: string)
    requires p.id != id && id in s.plans
    ensures var t := StartDryRunStep(h, s, p, planHash, keys, now).0;
            && id in t.plans && t.plans[id] == s.plans[id] && t.settled == s.settled
            && |t.jobs| >= |s.jobs| && t.jobs[..|s.jobs|] == s.jobs
  {
    hide SaveTargets, DryRunRefusal, CheckPlanHash, CanEditTargets;
    if keys.Some? { ReviewKeepsId(h, s.world, p, keys.value, now); }
  }

  lemma EndedLiveFreezes(h: Host, s: State, e: Event, id: string, i: nat)
    requires Collates(h) && Inv(h, s) && LiveAt(s, i, id) && Ended(s, i)
    ensures var t := Step(h, s, e);
            && id in s.plans && id in t.plans && t.plans[id] == s.plans[id]
            && LiveAt(t, i, id) && Ended(t, i) && t.jobs[i].ending == s.jobs[i].ending
  {
    assert JobOk(h, s, s.jobs[i]) && PlanOk(h, s, s.plans[id]);
    if e.FinishJob? || e.DropJob? {
      assert s.settled < |s.jobs| ==> s.jobs[s.settled].planId != id;
    } else {
      RequestsLeaveConfirmedPlan(h, s, e, id);
      assert Step(h, s, e).jobs[i] == Step(h, s, e).jobs[..|s.jobs|][i];
    }
  }

  /** Once a plan's live job has ended, no later event changes the plan row; a reported end is its verdict. */
  lemma {:induction false} LiveVerdictIsFinal(h: Host, w: World, before: seq<Event>, after: seq<Event>, id: string, i: nat)
    requires Collates(h)
    requires var s := Run(h, Start(w), before); LiveAt(s, i, id) && Ended(s, i)
    ensures var s := Run(h, Start(w), before);
            var t := Run(h, s, after);
            && id in s.plans && id in t.plans && t.plans[id] == s.plans[id]
            && LiveAt(t, i, id) && Ended(t, i) && t.jobs[i].ending == s.jobs[i].ending
            && (s.jobs[i].ending.Finished? ==> t.plans[id].status in {Succeeded, Failed} && t.plans[id].jobId == Some(i))
  {
    var s := Run(h, Start(w), before);
    ReachableIsSafe(h, w, before);
    assert JobOk(h, s, s.jobs[i]) && PlanOk(h, s, s.plans[id]);
    if after != [] {
      var front := after[..|after| - 1];
      LiveVerdictIsFinal(h, w, before, front, id, i);
      RunKeeps(h, s, front);
      EndedLiveFreezes(h, Run(h, s, front), after[|after| - 1], id, i);
    }
  }
}
