/** Consequences of the launch invariant, and what each handler does to the jobs. */
module LaunchFacts {
  import opened Base
  import opened Launch
  import opened LaunchSafety
  import Gpu

  // ---- GPUs and their price ----

  function GpusOf(w: World, nodes: seq<Id>): (r: seq<string>)
    requires forall n :: n in nodes ==> n in w.nodes
    ensures |r| == |nodes| && forall i :: 0 <= i < |nodes| ==> r[i] == w.nodes[nodes[i]].gpu
  {
    seq(|nodes|, i requires 0 <= i < |nodes| => assert nodes[i] in nodes; w.nodes[nodes[i]].gpu)
  }

  /** In every reachable state, an instance is billed at most the sum of the hourly rates of the GPUs it holds. */
  lemma BilledAtMostItsGpus(w: World, steps: seq<Step>, i: Id, nodes: seq<Id>)
    requires WorldOk(w) && i in Run(w, steps).instances
    requires NoDuplicates(nodes) && ToSet(nodes) == NodesOf(Run(w, steps).rows, i)
    ensures forall n :: n in nodes ==> n in w.nodes && w.nodes[n].gpu in w.catalogue
    ensures Run(w, steps).instances[i].hourlyRate <= Gpu.TotalRate(w.catalogue, GpusOf(w, nodes))
  {
    EveryRunIsSafe(w, steps);
    var s := Run(w, steps);
    var instance := s.instances[i];
    hide Run, Gpu.IsSuitable, Gpu.TotalRate;
    assert PlacementOk(w, instance, NodesOf(s.rows, i));
    DistinctSize(nodes);
    var sel := w.chutes[instance.chute].selector;
    forall n | n in nodes ensures GpuOk(w, instance, n) {
      assert n in ToSet(nodes);
    }
    var gpus := GpusOf(w, nodes);
    forall k | 0 <= k < |gpus| ensures Gpu.IsSuitable(w.catalogue, sel, gpus[k], true) {
      assert GpuOk(w, instance, nodes[k]);
    }
    Gpu.PriceIsAFloor(w.catalogue, sel, gpus);
    forall n | n in nodes ensures w.nodes[n].gpu in w.catalogue {
      var k :| 0 <= k < |nodes| && nodes[k] == n;
      assert gpus[k] in w.catalogue;
    }
  }

  lemma TakenByOne(w: World, s: State, gone: set<Id>, i: Id, n: Id)
    requires Inv(w, s) && i in s.instances && n in NodesOf(s.rows, i)
    ensures IsTaken(RemoveInstances(s, gone).rows, n) <==> i !in gone
  {
    var t := RemoveInstances(s, gone);
    hide PlacementsOk, ConfigsOk, InstancesOk, OnePerConfig, ClaimsOk, JobsOk;
    assert (i, n) in s.rows;
    assert i !in gone ==> (i, n) in t.rows;
  }

  /**
    * Deleting an instance undoes its claim: the very GPUs it held pass every check again for the same miner, chute and
    * host, and no GPU of another instance comes free.
    */
  lemma RemovalFreesGpus(w: World, steps: seq<Step>, i: Id)
    requires i in Run(w, steps).instances
    ensures var s := Run(w, steps);
            var t := RemoveInstances(s, {i});
            && s.instances[i].chute in w.chutes
            && NodesFit(w, t.rows, w.chutes[s.instances[i].chute], s.instances[i].hotkey, s.instances[i].host,
                        NodesOf(s.rows, i))
            && forall k, n :: k in t.instances && n in NodesOf(s.rows, k) ==> IsTaken(t.rows, n)
  {
    var s := Run(w, steps);
    var t := RemoveInstances(s, {i});
    EveryRunIsSafe(w, steps);
    hide Run, NodesOf;
    assert PlacementOk(w, s.instances[i], NodesOf(s.rows, i));
    forall n | n in NodesOf(s.rows, i)
      ensures NodeFits(w, t.rows, w.chutes[s.instances[i].chute], s.instances[i].hotkey, n)
    {
      TakenByOne(w, s, {i}, i, n);
      assert GpuOk(w, s.instances[i], n);
    }
    forall k, n | k in t.instances && n in NodesOf(s.rows, k) ensures IsTaken(t.rows, n) {
      TakenByOne(w, s, {i}, k, n);
    }
  }

  /** Only a claim creates an instance, and it is the first and only claim of its config to do so. */
  lemma InstancesComeFromClaims(w: World, s: State, step: Step, i: Id)
    requires Inv(w, s) && i !in s.instances && i in Apply(w, s, step).instances
    ensures step.Claim? && step.instance == i && step.id !in s.claims
    ensures Apply(w, s, step).claims == s.claims + [step.id]
    ensures forall j :: j in Apply(w, s, step).instances && Apply(w, s, step).instances[j].config == step.id ==> j == i
  {
    if !step.Claim? {
      NoInstanceAppears(w, s, step);
    } else {
      ClaimAdds(w, s, step.id, step.instance, step.claim, step.now);
    }
    StepKeeps(w, s, step);
    hide Apply, PlacementsOk, RowsOk, JobsOk, ConfigsOk, InstancesOk;
    assert NoDuplicates(Apply(w, s, step).claims);
    assert step.id !in s.claims by {
      LastIsNew(s.claims, step.id);
    }
  }

  lemma LastIsNew(claims: seq<Id>, id: Id)
    requires NoDuplicates(claims + [id])
    ensures id !in claims
  {
    var all := claims + [id];
    forall k | 0 <= k < |claims| ensures claims[k] != id {
      assert all[k] == claims[k] && all[|claims|] == id;
    }
  }

  lemma NoInstanceAppears(w: World, s: State, step: Step)
    requires !step.Claim?
    ensures Apply(w, s, step).instances.Keys <= s.instances.Keys
  {
    hide Closed, InstancesOf, HasJob, Detached, ResetJob, Declared;
  }

  lemma ClaimAdds(w: World, s: State, id: Id, instance: Id, claim: ClaimOutcome, now: int)
    ensures var t := OnClaim(w, s, id, instance, claim, now);
            || (t.instances == s.instances && t.claims == s.claims)
            || (t.instances.Keys == s.instances.Keys + {instance} && t.claims == s.claims + [id]
                && instance !in s.instances && t.instances[instance].config == id)
  {
    hide ResetJob, NodesFit;
  }

  // ---- When a job's outcome is settled ----

  predicate SameOutcome(j: Job, k: Job) {
    k.status == j.status && k.files == j.files && k.hasDetail == j.hasDetail && k.finishedAt == j.finishedAt
  }

  // The billing loop turns to a job that finished after it was selected.
  predicate IsStale(s: State, step: Step, j: Id) {
    step.BillingTurn? && step.id == j && j in s.batch && j in s.jobs && s.jobs[j].finishedAt.Some?
  }

  /**
    * No handler touches the outcome of a finished job, its finish time included, with one exception: the billing loop,
    * which rewrites the finish time exactly when it turns, at another time, to a job that finished after it was selected.
    */
  lemma FinishedIsFrozen(w: World, s: State, step: Step, j: Id)
    requires j in s.jobs && s.jobs[j].finishedAt.Some?
    ensures j in Apply(w, s, step).jobs
    ensures !IsStale(s, step, j) ==> SameOutcome(s.jobs[j], Apply(w, s, step).jobs[j])
    ensures Apply(w, s, step).jobs[j].finishedAt != s.jobs[j].finishedAt
            <==> IsStale(s, step, j) && Some(step.now) != s.jobs[j].finishedAt
  {
    ClosedKeepsRest(s.jobs[j]);
    hide Apply;
    if step.Claim? {
      ClaimKeepsOutcomes(w, s, step.id, step.instance, step.claim, step.now, j);
    } else if step.Restamp? {
      RestampKeepsOutcomes(s, step.id, step.now, j);
    } else if step.Verify? {
      VerifyKeepsOutcomes(s, step.id, step.verify, step.now, j);
    } else if step.Issue? || step.Activate? {
      OthersKeepOutcomes(w, s, step, j);
    } else if IsRemoval(step) {
      RemovalsFreeze(w, s, step, j);
    } else {
      JobStepsFreeze(w, s, step, j);
    }
  }

  predicate IsRemoval(step: Step) {
    step.DeleteByMiner? || step.Purge? || step.Remove? || step.Complete? || step.BillingTurn?
  }

  lemma RemovalsFreeze(w: World, s: State, step: Step, j: Id)
    requires j in s.jobs && s.jobs[j].finishedAt.Some? && IsRemoval(step)
    ensures j in Apply(w, s, step).jobs
    ensures !IsStale(s, step, j) ==> SameOutcome(s.jobs[j], Apply(w, s, step).jobs[j])
    ensures Apply(w, s, step).jobs[j].finishedAt != s.jobs[j].finishedAt
            <==> IsStale(s, step, j) && Some(step.now) != s.jobs[j].finishedAt
  {
    if step.BillingTurn? {
      BillingFreezes(s, step.id, step.now, j);
    } else if step.Complete? {
      CompleteFreezes(s, step.id, step.now, j);
    } else {
      DeletionsFreeze(w, s, step, j);
    }
    hide SameOutcome, OnBillingTurn, OnComplete, RemoveInstances, FailJobsOn;
  }

  lemma BillingFreezes(s: State, id: Id, now: int, j: Id)
    requires j in s.jobs && s.jobs[j].finishedAt.Some?
    ensures var t := OnBillingTurn(s, id, now);
            && j in t.jobs
            && (id == j && j in s.batch ==> t.jobs[j].finishedAt == Some(now))
            && (id != j || j !in s.batch ==> SameOutcome(s.jobs[j], t.jobs[j]))
  {
  }

  lemma CompleteFreezes(s: State, id: Id, now: int, j: Id)
    requires j in s.jobs && s.jobs[j].finishedAt.Some?
    ensures SameJob(s, OnComplete(s, id, now), j)
  {
    hide Closed;
  }

  lemma DeletionsFreeze(w: World, s: State, step: Step, j: Id)
    requires j in s.jobs && s.jobs[j].finishedAt.Some?
    requires step.DeleteByMiner? || step.Purge? || step.Remove?
    ensures SameJob(s, Apply(w, s, step), j)
  {
  }

  lemma JobStepsFreeze(w: World, s: State, step: Step, j: Id)
    requires j in s.jobs && s.jobs[j].finishedAt.Some?
    requires step.CreateJob? || step.Finish? || step.Upload? || step.Release? || step.BillingSelect?
    ensures j in Apply(w, s, step).jobs && SameOutcome(s.jobs[j], Apply(w, s, step).jobs[j])
  {
    hide Declared;
  }

  // The table of jobs is only changed in what a claim or a verification writes.
  predicate SameJob(s: State, t: State, j: Id) {
    j in s.jobs && j in t.jobs && SameOutcome(s.jobs[j], t.jobs[j]) && t.jobs[j].history == s.jobs[j].history
  }

  lemma SavingKeepsOutcomes(s: State, id: Id, c: Config, gone: set<Id>, now: int, j: Id)
    requires j in s.jobs
    ensures SameJob(s, SaveConfig(s, id, c), j)
    ensures SameJob(s, RemoveInstances(s, gone), j)
    ensures SameJob(s, MarkVerified(s, gone, now), j)
  {
  }

  lemma PlacingKeepsOutcomes(s: State, id: Id, c: Config, instance: Id, host: string, nodes: set<Id>, price: real, j: Id)
    requires j in s.jobs && (c.job.Some? ==> c.job.value in s.jobs)
    ensures SameJob(s, Placed(s, id, c, instance, host, nodes, price), j)
  {
  }

  lemma ClaimKeepsOutcomes(w: World, s: State, id: Id, instance: Id, claim: ClaimOutcome, now: int, j: Id)
    requires j in s.jobs
    ensures SameJob(s, OnClaim(w, s, id, instance, claim, now), j)
  {
    SameJobSelf(s, j);
    hide SaveConfig, Placed, NodesFit, SameOutcome, SameJob;
    if id in s.configs && s.configs[id].retrievedAt.None? && s.configs[id].chute in w.chutes && instance !in s.instances {
      var c := Retrieved(s.configs[id], now);
      var t := SaveConfig(s, id, c);
      SavingKeepsOutcomes(s, id, c, {}, now, j);
      SavingKeepsOutcomes(s, id, c.(failedAt := Some(now)), {}, now, j);
      SavingKeepsOutcomes(s, id, s.configs[id].(failedAt := Some(now)), {}, now, j);
      assert j in t.jobs by { SameJobIn(s, t, j); }
      if claim.Proceeds? && w.chutes[c.chute].price.Some? && (c.job.Some? ==> c.job.value in t.jobs) {
        var u := Placed(t, id, c, instance, claim.host, claim.nodes, w.chutes[c.chute].price.value);
        assert c.job.Some? ==> c.job.value in t.jobs;
        PlacingKeepsOutcomes(t, id, c, instance, claim.host, claim.nodes, w.chutes[c.chute].price.value, j);
        SameJobIn(t, u, j);
        SavingKeepsOutcomes(u, id, c, {}, now, j);
        SameJobTwice(s, t, u, SaveConfig(u, id, c), j);
      }
    }
  }

  lemma SameJobIn(s: State, t: State, j: Id)
    requires SameJob(s, t, j)
    ensures j in s.jobs && j in t.jobs
  {
  }

  lemma SameJobSelf(s: State, j: Id)
    requires j in s.jobs
    ensures SameJob(s, s, j)
  {
  }

  lemma SameJobTwice(s: State, t: State, u: State, v: State, j: Id)
    requires SameJob(s, t, j) && SameJob(t, u, j) && SameJob(u, v, j)
    ensures SameJob(s, v, j)
  {
  }

  lemma RestampKeepsOutcomes(s: State, id: Id, now: int, j: Id)
    requires j in s.jobs
    ensures SameJob(s, OnRestamp(s, id, now), j)
  {
    if id in s.configs {
      SavingKeepsOutcomes(s, id, s.configs[id].(retrievedAt := Some(now)), {}, now, j);
    }
    hide SaveConfig;
  }

  lemma VerifyKeepsOutcomes(s: State, id: Id, verify: VerifyOutcome, now: int, j: Id)
    requires j in s.jobs
    ensures SameJob(s, OnVerify(s, id, verify, now), j)
  {
    if id in s.configs {
      var c := s.configs[id];
      var of := InstancesOf(s, id);
      SavingKeepsOutcomes(s, id, c.(failedAt := Some(now)), of, now, j);
      SavingKeepsOutcomes(RemoveInstances(s, of), id, c.(failedAt := Some(now)), of, now, j);
      SavingKeepsOutcomes(MarkVerified(s, of, now), id, c.(verifiedAt := Some(now)), of, now, j);
    }
    hide SaveConfig, RemoveInstances, MarkVerified, InstancesOf, HasJob;
  }

  lemma OthersKeepOutcomes(w: World, s: State, step: Step, j: Id)
    requires j in s.jobs && (step.Issue? || step.Activate?)
    ensures j in Apply(w, s, step).jobs && SameOutcome(s.jobs[j], Apply(w, s, step).jobs[j])
    ensures s.jobs[j].history <= Apply(w, s, step).jobs[j].history
  {
    hide InstancesOf;
  }

  /** Over any continuation without a stale billing turn on it, a finished job keeps its outcome. */
  lemma {:induction false} OutcomeIsFinal(w: World, steps: seq<Step>, n: nat, j: Id)
    requires n <= |steps| && j in Run(w, steps[..n]).jobs && Run(w, steps[..n]).jobs[j].finishedAt.Some?
    requires forall m :: n <= m < |steps| ==> !IsStale(Run(w, steps[..m]), steps[m], j)
    ensures j in Run(w, steps).jobs && SameOutcome(Run(w, steps[..n]).jobs[j], Run(w, steps).jobs[j])
    decreases |steps|
  {
    hide Apply;
    if n == |steps| {
      assert steps[..n] == steps;
    } else {
      var m := |steps| - 1;
      assert steps[..m][..n] == steps[..n];
      forall k | n <= k < m ensures !IsStale(Run(w, steps[..m][..k]), steps[..m][k], j) {
        assert steps[..m][..k] == steps[..k];
      }
      OutcomeIsFinal(w, steps[..m], n, j);
      FinishedIsFrozen(w, Run(w, steps[..m]), steps[m], j);
    }
  }

  // A run: the billing loop selects a job, its miner then deletes the instance, and the loop reaches the job.
  lemma Extend(w: World, steps: seq<Step>, step: Step) returns (more: seq<Step>)
    ensures more == steps + [step] && Run(w, more) == Apply(w, Run(w, steps), step)
  {
    more := steps + [step];
    assert more[..|more| - 1] == steps;
  }

  /** The finish time of a job can be written twice. */
  lemma StaleBillingRewrites(w: World, steps: seq<Step>, j: Id, i: Id, hotkey: string, first: int, second: int)
    returns (more: seq<Step>)
    requires j in Run(w, steps).jobs && Run(w, steps).jobs[j].finishedAt.None? && Run(w, steps).jobs[j].instance == Some(i)
    requires i in Run(w, steps).instances && Run(w, steps).instances[i].hotkey == hotkey
    ensures more == steps + [BillingSelect({j}), DeleteByMiner(i, hotkey, first), BillingTurn(j, second)]
    ensures j in Run(w, more[..|steps| + 2]).jobs && j in Run(w, more).jobs
    ensures Run(w, more[..|steps| + 2]).jobs[j].finishedAt == Some(first)
    ensures Run(w, more).jobs[j].finishedAt == Some(second)
  {
    hide Run;
    more := Extend(w, steps, BillingSelect({j}));
    more := Extend(w, more, DeleteByMiner(i, hotkey, first));
    var deleted := more;
    more := Extend(w, more, BillingTurn(j, second));
    assert more[..|steps| + 2] == deleted;
  }

  // ---- Histories ----

  lemma ClosedKeepsRest(j: Job)
    ensures Closed(j).Some? ==> var k := Closed(j).value; k.history == j.history && k.holder == j.holder
  {
  }

  lemma RemovalsKeepHistory(w: World, s: State, step: Step, j: Id)
    requires j in s.jobs && IsRemoval(step)
    ensures j in Apply(w, s, step).jobs && Apply(w, s, step).jobs[j].history == s.jobs[j].history
  {
    RemovalsKeepRest(w, s, step, j);
    hide Apply;
  }

  // Neither the history nor the holder of a job depends on its instance.
  lemma RemovalsKeepRest(w: World, s: State, step: Step, j: Id)
    requires j in s.jobs && IsRemoval(step)
    ensures var t := Apply(w, s, step);
            j in t.jobs && t.jobs[j].history == s.jobs[j].history && t.jobs[j].holder == s.jobs[j].holder
  {
    hide RemoveInstances, FailJobsOn, Closed;
    match step
    case DeleteByMiner(i, _, now) =>
      FailingKeepsRest(s, i, now, j);
      RemovingKeepsRest(FailJobsOn(s, i, now), {i}, j);
    case Purge(i, now) =>
      RemovingKeepsRest(s, {i}, j);
      FailingKeepsRest(RemoveInstances(s, {i}), i, now, j);
    case Remove(i) => RemovingKeepsRest(s, {i}, j);
    case Complete(id, now) => CompletingKeepsRest(s, id, now, j);
    case BillingTurn(id, now) => BillingKeepsRest(s, id, now, j);
  }

  lemma RemovingKeepsRest(s: State, gone: set<Id>, j: Id)
    requires j in s.jobs
    ensures var t := RemoveInstances(s, gone);
            j in t.jobs && t.jobs[j].history == s.jobs[j].history && t.jobs[j].holder == s.jobs[j].holder
  {
  }

  lemma FailingKeepsRest(s: State, i: Id, now: int, j: Id)
    requires j in s.jobs
    ensures var t := FailJobsOn(s, i, now);
            j in t.jobs && t.jobs[j].history == s.jobs[j].history && t.jobs[j].holder == s.jobs[j].holder
  {
  }

  lemma CompletingKeepsRest(s: State, id: Id, now: int, j: Id)
    requires j in s.jobs
    ensures var t := OnComplete(s, id, now);
            j in t.jobs && t.jobs[j].history == s.jobs[j].history && t.jobs[j].holder == s.jobs[j].holder
  {
    hide RemoveInstances;
    if id in s.jobs && Closed(s.jobs[id]).Some? {
      ClosedKeepsRest(s.jobs[id]);
      var t := SaveJob(s, id, Closed(s.jobs[id]).value.(finishedAt := Some(now)));
      hide Closed;
      RemovingKeepsRest(t, {s.jobs[id].instance.GetOr("")}, j);
    }
  }

  lemma BillingKeepsRest(s: State, id: Id, now: int, j: Id)
    requires j in s.jobs
    ensures var t := OnBillingTurn(s, id, now);
            j in t.jobs && t.jobs[j].history == s.jobs[j].history && t.jobs[j].holder == s.jobs[j].holder
  {
    hide RemoveInstances;
    if id in s.batch && id in s.jobs {
      var t := SaveJob(s, id, s.jobs[id].(status := "billing_termination", hasDetail := true, finishedAt := Some(now)));
      RemovingKeepsRest(t, {s.batch[id].GetOr("")}, j);
    }
  }

  lemma JobStepsKeepHistory(w: World, s: State, step: Step, j: Id)
    requires j in s.jobs
    requires step.CreateJob? || step.Finish? || step.Upload? || step.Release? || step.BillingSelect?
    ensures j in Apply(w, s, step).jobs && Apply(w, s, step).jobs[j].history == s.jobs[j].history
  {
    hide Declared;
  }

  lemma HistoryGrows(w: World, s: State, step: Step, j: Id)
    requires j in s.jobs
    ensures j in Apply(w, s, step).jobs && s.jobs[j].history <= Apply(w, s, step).jobs[j].history
  {
    if step.Claim? {
      ClaimKeepsOutcomes(w, s, step.id, step.instance, step.claim, step.now, j);
    } else if step.Restamp? {
      RestampKeepsOutcomes(s, step.id, step.now, j);
    } else if step.Verify? {
      VerifyKeepsOutcomes(s, step.id, step.verify, step.now, j);
    } else if step.Issue? || step.Activate? {
      OthersKeepOutcomes(w, s, step, j);
    } else if IsRemoval(step) {
      RemovalsKeepHistory(w, s, step, j);
    } else {
      JobStepsKeepHistory(w, s, step, j);
    }
    hide OnClaim, OnRestamp, OnVerify, OnIssue, OnActivate, OnFinish, OnUpload, OnComplete, OnRelease, OnBillingTurn,
      RemoveInstances, FailJobsOn;
  }

  lemma {:induction false} HistoryIsKept(w: World, steps: seq<Step>, n: nat, j: Id)
    requires n <= |steps| && j in Run(w, steps[..n]).jobs
    ensures j in Run(w, steps).jobs && Run(w, steps[..n]).jobs[j].history <= Run(w, steps).jobs[j].history
    decreases |steps|
  {
    hide Apply;
    if n == |steps| {
      assert steps[..n] == steps;
    } else {
      var m := |steps| - 1;
      assert steps[..m][..n] == steps[..n];
      HistoryIsKept(w, steps[..m], n, j);
      HistoryGrows(w, Run(w, steps[..m]), steps[m], j);
    }
  }

  /** Whoever held a job at any point of a run is in its history, which has at most 15 entries and none twice. */
  lemma EveryHolderIsInHistory(w: World, steps: seq<Step>, n: nat, j: Id)
    requires n <= |steps| && j in Run(w, steps[..n]).jobs && Run(w, steps[..n]).jobs[j].holder.Some?
    ensures j in Run(w, steps).jobs && Run(w, steps[..n]).jobs[j].holder.value in Run(w, steps).jobs[j].history
    ensures |Run(w, steps).jobs[j].history| <= 15 && NoDuplicates(Run(w, steps).jobs[j].history)
  {
    HistoryIsKept(w, steps, n, j);
    EveryRunIsSafe(w, steps);
    EveryRunIsSafe(w, steps[..n]);
    hide Run;
    InvSane(w, Run(w, steps), j);
    InvSane(w, Run(w, steps[..n]), j);
  }

  // ---- Who loses a job ----

  // What a claim on a held job commits: with a config that had not failed, anything but an exception costs the job; one
  // that had failed for its GPUs and is claimed again gets as far as its price, its ports, its GPUs and the encryption.
  predicate ClaimCostsJob(w: World, s: State, id: Id, instance: Id, claim: ClaimOutcome, j: Id) {
    && id in s.configs && s.configs[id].job == Some(j) && s.configs[id].retrievedAt.None?
    && s.configs[id].chute in w.chutes && instance !in s.instances && !claim.Raises?
    && (claim.Proceeds? && s.configs[id].failedAt.Some? ==>
          var chute := w.chutes[s.configs[id].chute];
          && chute.price.Some? && claim.portsMatch
          && (NodesFit(w, s.rows, chute, s.configs[id].hotkey, claim.host, claim.nodes) ==> claim.encrypts))
  }

  // A verification that fails, or finds its instance gone.
  predicate VerifyCostsJob(s: State, id: Id, verify: VerifyOutcome, j: Id) {
    && id in s.configs && s.configs[id].job == Some(j) && s.configs[id].retrievedAt.Some?
    && s.configs[id].verifiedAt.None? && s.configs[id].failedAt.None? && !verify.Throws?
    && (InstancesOf(s, id) == {} || verify.Fails?)
  }

  // The second transaction of a claim, on a config that has failed before or since.
  predicate RestampCostsJob(s: State, id: Id, j: Id) {
    id in s.stamping && id in s.configs && s.configs[id].job == Some(j) && s.configs[id].failedAt.Some?
  }

  predicate ReleaseCostsJob(s: State, id: Id, hotkey: string, j: Id) {
    id == j && j in s.jobs && s.jobs[j].holder == Some(hotkey) && s.jobs[j].finishedAt.None?
  }

  predicate CostsJob(w: World, s: State, step: Step, j: Id) {
    match step
    case Claim(id, instance, claim, _) => ClaimCostsJob(w, s, id, instance, claim, j)
    case Restamp(id, _) => RestampCostsJob(s, id, j)
    case Verify(id, verify, _) => VerifyCostsJob(s, id, verify, j)
    case Release(id, hotkey) => ReleaseCostsJob(s, id, hotkey, j)
    case _ => false
  }

  /**
    * A held job changes hands only by leaving its holder, and what makes it leave can be told before the step: a claim
    * or a failing verification of any config for that job, the holder's own or not, or a release by the holder.
    */
  lemma HolderIsLost(w: World, s: State, step: Step, j: Id)
    requires Inv(w, s) && j in s.jobs && s.jobs[j].holder.Some?
    ensures j in Apply(w, s, step).jobs
    ensures Apply(w, s, step).jobs[j].holder == if CostsJob(w, s, step, j) then None else s.jobs[j].holder
  {
    if step.Claim? {
      ClaimTakesJob(w, s, step.id, step.instance, step.claim, step.now, j);
    } else if step.Restamp? {
      RestampTakesJob(s, step.id, step.now, j);
    } else if step.Verify? {
      VerifyTakesJob(s, step.id, step.verify, step.now, j);
    } else if IsRemoval(step) {
      RemovalsLeaveHolder(w, s, step, j);
    } else if !step.Release? {
      OthersLeaveHolder(w, s, step, j);
    }
    hide OnClaim, OnRestamp, OnVerify, OnIssue, OnActivate, Closed, Declared, Inv, OnFinish, OnUpload, OnComplete, OnBillingTurn,
      RemoveInstances, FailJobsOn, ClaimCostsJob, RestampCostsJob, VerifyCostsJob;
  }

  lemma OthersLeaveHolder(w: World, s: State, step: Step, j: Id)
    requires j in s.jobs && !IsRemoval(step) && !step.Claim? && !step.Restamp? && !step.Verify? && !step.Release?
    ensures j in Apply(w, s, step).jobs && Apply(w, s, step).jobs[j].holder == s.jobs[j].holder
  {
    hide InstancesOf, Declared;
  }

  lemma RemovalsLeaveHolder(w: World, s: State, step: Step, j: Id)
    requires j in s.jobs && IsRemoval(step)
    ensures j in Apply(w, s, step).jobs && Apply(w, s, step).jobs[j].holder == s.jobs[j].holder
  {
    RemovalsKeepRest(w, s, step, j);
    hide Apply;
  }

  // Saving a config takes the job exactly if the config is failed and for that job.
  lemma SavingTakesJob(s: State, id: Id, c: Config, j: Id)
    requires j in s.jobs
    ensures j in SaveConfig(s, id, c).jobs
    ensures SaveConfig(s, id, c).jobs[j].holder
            == if c.job == Some(j) && c.failedAt.Some? then None else s.jobs[j].holder
  {
  }

  lemma ClaimTakesJob(w: World, s: State, id: Id, instance: Id, claim: ClaimOutcome, now: int, j: Id)
    requires Inv(w, s) && j in s.jobs && s.jobs[j].holder.Some?
    ensures var t := OnClaim(w, s, id, instance, claim, now);
            && j in t.jobs
            && t.jobs[j].holder == if ClaimCostsJob(w, s, id, instance, claim, j) then None else s.jobs[j].holder
  {
    hide Inv, NodesFit, SaveConfig, Placed;
    if id in s.configs && s.configs[id].retrievedAt.None? && s.configs[id].chute in w.chutes && instance !in s.instances {
      var c := Retrieved(s.configs[id], now);
      var t := SaveConfig(s, id, c);
      SavingTakesJob(s, id, c, j);
      SavingTakesJob(s, id, c.(failedAt := Some(now)), j);
      SavingTakesJob(s, id, s.configs[id].(failedAt := Some(now)), j);
      if c.job.Some? && c.job.value in t.jobs && t.jobs[c.job.value].holder.None? && w.chutes[c.chute].price.Some?
         && claim.Proceeds?
      {
        var price := w.chutes[c.chute].price.value;
        PlacingTakesJob(t, id, c, instance, claim.host, claim.nodes, price, j);
        SavingTakesJob(Placed(t, id, c, instance, claim.host, claim.nodes, price), id, c, j);
      } else if c.job.None? && w.chutes[c.chute].price.Some? && claim.Proceeds? {
        var price := w.chutes[c.chute].price.value;
        PlacingTakesJob(t, id, c, instance, claim.host, claim.nodes, price, j);
        SavingTakesJob(Placed(t, id, c, instance, claim.host, claim.nodes, price), id, c, j);
      }
    }
  }

  lemma RestampTakesJob(s: State, id: Id, now: int, j: Id)
    requires j in s.jobs && s.jobs[j].holder.Some?
    ensures var t := OnRestamp(s, id, now);
            j in t.jobs && t.jobs[j].holder == if RestampCostsJob(s, id, j) then None else s.jobs[j].holder
  {
    if id in s.configs {
      SavingTakesJob(s, id, s.configs[id].(retrievedAt := Some(now)), j);
    }
    hide SaveConfig;
  }

  lemma PlacingTakesJob(s: State, id: Id, c: Config, instance: Id, host: string, nodes: set<Id>, price: real, j: Id)
    requires j in s.jobs && (c.job.Some? ==> c.job.value in s.jobs)
    ensures j in Placed(s, id, c, instance, host, nodes, price).jobs
    ensures c.job != Some(j) ==> Placed(s, id, c, instance, host, nodes, price).jobs[j].holder == s.jobs[j].holder
  {
  }

  lemma VerifyTakesJob(s: State, id: Id, verify: VerifyOutcome, now: int, j: Id)
    requires j in s.jobs && s.jobs[j].holder.Some?
    ensures var t := OnVerify(s, id, verify, now);
            && j in t.jobs
            && t.jobs[j].holder == if VerifyCostsJob(s, id, verify, j) then None else s.jobs[j].holder
  {
    if id in s.configs {
      var c := s.configs[id];
      var of := InstancesOf(s, id);
      SavingTakesJob(s, id, c.(failedAt := Some(now)), j);
      SavingTakesJob(RemoveInstances(s, of), id, c.(failedAt := Some(now)), j);
      SavingTakesJob(MarkVerified(s, of, now), id, c.(verifiedAt := Some(now)), j);
    }
    hide HasJob, InstancesOf, SaveConfig;
  }

  /**
    * A miner that loses the race for a job takes it from the winner: the trigger that releases the loser's failed config
    * clears the job's holder and instance, while the winner's instance runs on.
    */
  lemma LosingClaimEvicts(w: World, s: State, id: Id, instance: Id, claim: ClaimOutcome, now: int, j: Id)
    requires Inv(w, s) && id in s.configs && s.configs[id].job == Some(j) && j in s.jobs && s.jobs[j].holder.Some?
    requires s.configs[id].retrievedAt.None? && s.configs[id].failedAt.None? && claim.Proceeds? && instance !in s.instances
    ensures var t := OnClaim(w, s, id, instance, claim, now);
            && t.configs[id].failedAt == Some(now)
            && t.jobs[j].holder == None && t.jobs[j].instance == None
            && t.instances == s.instances && t.rows == s.rows
  {
    ConfigIsSane(w, s, id);
    hide Inv;
  }

  /**
    * So does a claim of a config that had failed before: between its two transactions another miner may take the job, and
    * the second one evicts that miner, whose instance runs on.
    */
  lemma ReclaimEvictsLater(w: World, s: State, id: Id, instance: Id, claim: ClaimOutcome, now: int, j: Id,
                           other: Id, theirs: Id, their: ClaimOutcome, later: int)
    requires Inv(w, s) && IsClaimable(w, s, id, instance, claim, j) && s.configs[id].failedAt.Some? && j in s.jobs
    requires var t := OnClaim(w, s, id, instance, claim, now);
             IsClaimable(w, t, other, theirs, their, j) && t.configs[other].failedAt.None?
    ensures var t := OnClaim(w, s, id, instance, claim, now);
            var u := OnClaim(w, t, other, theirs, their, now);
            var v := OnRestamp(u, id, later);
            && j in t.jobs && t.jobs[j].holder == None && id in t.stamping
            && j in u.jobs && u.jobs[j].holder == Some(t.configs[other].hotkey) && theirs in u.instances
            && j in v.jobs && v.jobs[j].holder == None && v.jobs[j].instance == None && v.instances == u.instances
  {
    ReclaimLetsGo(w, s, id, instance, claim, now, j);
    var t := OnClaim(w, s, id, instance, claim, now);
    ClaimKeeps(w, s, id, instance, claim, now);
    hide OnClaim, Inv, NodesFit, NodesOf;
    ClaimSucceeds(w, t, other, theirs, their, now);
    ClaimLeavesOthers(w, t, other, theirs, their, now, id);
  }

  // A config of the job whose claim finds everything in order.
  predicate IsClaimable(w: World, s: State, id: Id, instance: Id, claim: ClaimOutcome, j: Id) {
    && id in s.configs && s.configs[id].job == Some(j) && s.configs[id].retrievedAt.None? && instance !in s.instances
    && claim.Proceeds? && claim.portsMatch && claim.encrypts
    && s.configs[id].chute in w.chutes && w.chutes[s.configs[id].chute].price.Some?
    && NodesFit(w, s.rows, w.chutes[s.configs[id].chute], s.configs[id].hotkey, claim.host, claim.nodes)
  }

  // The trigger fires on both updates of the first transaction: the job is taken from any holder, and not kept.
  lemma ReclaimLetsGo(w: World, s: State, id: Id, instance: Id, claim: ClaimOutcome, now: int, j: Id)
    requires Inv(w, s) && IsClaimable(w, s, id, instance, claim, j) && s.configs[id].failedAt.Some? && j in s.jobs
    ensures var t := OnClaim(w, s, id, instance, claim, now);
            && j in t.jobs && t.jobs[j].holder == None && t.jobs[j].instance == None
            && id in t.stamping && id in t.configs && t.configs[id].failedAt.Some? && t.configs[id].job == Some(j)
  {
    hide Inv, NodesFit;
  }

  lemma ClaimLeavesOthers(w: World, s: State, id: Id, instance: Id, claim: ClaimOutcome, now: int, k: Id)
    requires k in s.configs && k != id
    ensures var t := OnClaim(w, s, id, instance, claim, now);
            k in t.configs && t.configs[k] == s.configs[k] && (k in s.stamping ==> k in t.stamping)
  {
    hide NodesFit, ResetJob;
  }

  /**
    * Purging an instance never finishes its job: deleting the instance first clears the reference by which the job is
    * looked up. A miner deleting the same instance does finish the job, if it was not finished yet.
    */
  lemma PurgeLeavesJobUnfinished(w: World, s: State, i: Id, now: int, j: Id)
    requires j in s.jobs && s.jobs[j].instance == Some(i) && i in s.instances
    ensures var t := Apply(w, s, Purge(i, now));
            t.jobs[j] == s.jobs[j].(instance := None) && i !in t.instances
    ensures var t := Apply(w, s, DeleteByMiner(i, s.instances[i].hotkey, now));
            && i !in t.instances && t.jobs[j].instance == None
            && t.jobs[j].finishedAt == (if s.jobs[j].finishedAt.None? then Some(now) else s.jobs[j].finishedAt)
            && t.jobs[j].status == (if s.jobs[j].finishedAt.None? then "error" else s.jobs[j].status)
  {
  }

  // ---- The way from a config to an active instance ----

  predicate IsFree(s: State, c: Config) {
    c.job.Some? ==> c.job.value in s.jobs && s.jobs[c.job.value].holder.None?
  }

  lemma ClaimSucceeds(w: World, s: State, id: Id, instance: Id, claim: ClaimOutcome, now: int)
    requires Inv(w, s) && id in s.configs && s.configs[id].retrievedAt.None? && s.configs[id].failedAt.None?
    requires IsFree(s, s.configs[id]) && w.chutes[s.configs[id].chute].price.Some? && instance !in s.instances
    requires claim.Proceeds? && claim.portsMatch && claim.encrypts
    requires NodesFit(w, s.rows, w.chutes[s.configs[id].chute], s.configs[id].hotkey, claim.host, claim.nodes)
    ensures var t := OnClaim(w, s, id, instance, claim, now);
            && instance in t.instances && t.instances[instance].config == id && InstancesOf(t, id) == {instance}
            && NodesOf(t.rows, instance) == claim.nodes && id in t.configs && Inv(w, t)
            && t.configs[id] == s.configs[id].(retrievedAt := Some(now))
            && (s.configs[id].job.Some? ==>
                  && s.configs[id].job.value in t.jobs
                  && t.jobs[s.configs[id].job.value].holder == Some(s.configs[id].hotkey)
                  && t.jobs[s.configs[id].job.value].instance == Some(instance))
  {
    var c := Retrieved(s.configs[id], now);
    var t := s.(configs := s.configs[id := c]);
    ClaimKeeps(w, s, id, instance, claim, now);
    FirstClaim(w, s, id, instance, now);
    ClaimUnfolds(w, s, id, instance, claim, now);
    RowsAreOfInstances(w, s);
    hide Inv, NodesFit, OnClaim;
    PlacedFacts(t, id, instance, claim.host, claim.nodes, w.chutes[c.chute].price.value);
  }

  // Nothing fires on a config that has not failed.
  lemma ClaimUnfolds(w: World, s: State, id: Id, instance: Id, claim: ClaimOutcome, now: int)
    requires Inv(w, s) && id in s.configs && s.configs[id].retrievedAt.None? && s.configs[id].failedAt.None?
    requires IsFree(s, s.configs[id]) && instance !in s.instances
    requires claim.Proceeds? && claim.portsMatch && claim.encrypts
    ensures s.configs[id].chute in w.chutes
    requires s.configs[id].chute in w.chutes ==> w.chutes[s.configs[id].chute].price.Some?
    requires s.configs[id].chute in w.chutes ==>
               NodesFit(w, s.rows, w.chutes[s.configs[id].chute], s.configs[id].hotkey, claim.host, claim.nodes)
    ensures var c := Retrieved(s.configs[id], now);
            var t := s.(configs := s.configs[id := c]);
            && SaveConfig(s, id, c) == t
            && OnClaim(w, s, id, instance, claim, now)
               == Placed(t, id, c, instance, claim.host, claim.nodes, w.chutes[c.chute].price.value)
  {
    ConfigIsSane(w, s, id);
    hide Inv, NodesFit;
    var c := Retrieved(s.configs[id], now);
    var t := s.(configs := s.configs[id := c]);
    var u := Placed(t, id, c, instance, claim.host, claim.nodes, w.chutes[c.chute].price.value);
    assert SaveConfig(u, id, c) == u;
  }

  lemma PlacedFacts(s: State, id: Id, instance: Id, host: string, nodes: set<Id>, price: real)
    requires IsFirst(s, id, instance) && forall r :: r in s.rows ==> r.0 in s.instances
    ensures var c := s.configs[id];
            var t := Placed(s, id, c, instance, host, nodes, price);
            && instance in t.instances && t.instances[instance].config == id && InstancesOf(t, id) == {instance}
            && NodesOf(t.rows, instance) == nodes && t.configs == s.configs
            && (c.job.Some? ==> c.job.value in t.jobs && t.jobs[c.job.value].holder == Some(c.hotkey)
                                && t.jobs[c.job.value].instance == Some(instance))
  {
    var t := Placed(s, id, s.configs[id], instance, host, nodes, price);
    forall i | i in s.instances ensures s.instances[i].config != id {
      assert i in InstancesOf(s, id) <==> s.instances[i].config == id;
    }
    forall n | n in nodes ensures n in NodesOf(t.rows, instance) {
      assert (instance, n) in t.rows;
    }
  }

  lemma RowsAreOfInstances(w: World, s: State)
    requires Inv(w, s)
    ensures forall r :: r in s.rows ==> r.0 in s.instances
  {
  }

  lemma VerifySucceeds(w: World, s: State, id: Id, instance: Id, now: int)
    requires Inv(w, s) && id in s.configs && s.configs[id].retrievedAt.Some?
    requires s.configs[id].verifiedAt.None? && s.configs[id].failedAt.None? && InstancesOf(s, id) == {instance}
    ensures var t := OnVerify(s, id, Passes(true), now);
            && instance in t.instances && InstancesOf(t, id) == {instance} && id in t.configs
            && t.configs[id].verifiedAt == Some(now) && t.instances[instance].verified && Inv(w, t)
            && t.rows == s.rows && t.jobs == map j | j in s.jobs :: Started(s.jobs[j], {instance}, now)
  {
    VerifyKeeps(w, s, id, Passes(true), now);
    hide Inv, HasJob;
    assert instance in InstancesOf(s, id);
    assert InstancesOf(OnVerify(s, id, Passes(true), now), id) == InstancesOf(s, id);
  }

  /**
    * A config whose job, if any, is free becomes an active, verified instance holding exactly the GPUs it brought, by one
    * claim, one verification and one activation; its miner then holds the job, and the job has started.
    */
  lemma LaunchSucceeds(w: World, s: State, id: Id, instance: Id, claim: ClaimOutcome, now: int)
    requires Inv(w, s) && id in s.configs && s.configs[id].retrievedAt.None? && s.configs[id].failedAt.None?
    requires IsFree(s, s.configs[id]) && w.chutes[s.configs[id].chute].price.Some? && instance !in s.instances
    requires claim.Proceeds? && claim.portsMatch && claim.encrypts
    requires NodesFit(w, s.rows, w.chutes[s.configs[id].chute], s.configs[id].hotkey, claim.host, claim.nodes)
    ensures var t := OnActivate(OnVerify(OnClaim(w, s, id, instance, claim, now), id, Passes(true), now), id, true);
            && instance in t.instances && t.instances[instance].active && t.instances[instance].verified
            && t.instances[instance].config == id && NodesOf(t.rows, instance) == claim.nodes
            && (s.configs[id].job.Some? ==>
                  && s.configs[id].job.value in t.jobs
                  && t.jobs[s.configs[id].job.value].holder == Some(s.configs[id].hotkey)
                  && t.jobs[s.configs[id].job.value].instance == Some(instance)
                  && t.jobs[s.configs[id].job.value].startedAt == Some(now))
  {
    hide OnClaim, OnVerify, OnActivate, Inv, NodesFit, NodesOf, InstancesOf;
    ClaimSucceeds(w, s, id, instance, claim, now);
    ConfigIsSane(w, s, id);
    var claimed := OnClaim(w, s, id, instance, claim, now);
    VerifySucceeds(w, claimed, id, instance, now);
    var verified := OnVerify(claimed, id, Passes(true), now);
    ActivateSucceeds(verified, id, instance);
  }

  lemma ActivateSucceeds(s: State, id: Id, instance: Id)
    requires id in s.configs && s.configs[id].verifiedAt.Some? && InstancesOf(s, id) == {instance}
    ensures var t := OnActivate(s, id, true);
            && instance in s.instances && instance in t.instances && t.rows == s.rows && t.jobs == s.jobs
            && t.instances[instance] == s.instances[instance].(active := true)
            && t.instances[instance].config == id
  {
    assert instance in InstancesOf(s, id);
  }
}
