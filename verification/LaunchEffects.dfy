/** What each handler does to the tables, told from the tables before it: for every fact about an instance, a config or a
    job, the steps that change it. */
module LaunchEffects {
  import opened Base
  import opened Launch
  import opened LaunchSafety
  import opened LaunchFacts
  import Gpu

  // ---- Instances ----

  // A verification gets past the checks of the config.
  predicate IsOpen(s: State, id: Id) {
    && id in s.configs && s.configs[id].retrievedAt.Some?
    && s.configs[id].verifiedAt.None? && s.configs[id].failedAt.None?
  }

  // Closing a job raises: a file is missing and there is neither a "complete" to take back nor an error to add to.
  predicate CannotClose(j: Job) {
    && (exists f :: f in j.files && !j.files[f])
    && !("complete" <= j.status) && !j.hasDetail
  }

  predicate LosesInstance(s: State, step: Step, i: Id)
    requires i in s.instances
  {
    match step
    case Verify(id, verify, _) => s.instances[i].config == id && IsOpen(s, id) && verify.Fails?
    case DeleteByMiner(k, hotkey, _) => k == i && s.instances[i].hotkey == hotkey
    case Purge(k, _) => k == i
    case Remove(k) => k == i
    case Complete(j, _) =>
      j in s.jobs && s.jobs[j].finishedAt.None? && s.jobs[j].instance == Some(i) && !CannotClose(s.jobs[j])
    case BillingTurn(j, _) => j in s.batch && j in s.jobs && s.batch[j] == Some(i)
    case _ => false
  }

  /** An instance disappears exactly if a verification of its config fails, its miner deletes it, it is purged or removed,
      its job is completed without raising, or the billing loop gets to a job it selected with it. */
  lemma InstanceIsLostIff(w: World, s: State, step: Step, i: Id)
    requires i in s.instances
    ensures i !in Apply(w, s, step).instances <==> LosesInstance(s, step, i)
  {
    if step.Claim? {
      ClaimAdds(w, s, step.id, step.instance, step.claim, step.now);
    } else if step.Verify? {
      VerifyRemoves(s, step.id, step.verify, step.now, i);
    } else if step.Complete? {
      CompleteRemoves(s, step.id, step.now, i);
    } else if step.BillingTurn? {
      BillingRemoves(s, step.id, step.now, i);
    } else if step.DeleteByMiner? || step.Purge? || step.Remove? {
      DeletionsRemove(w, s, step, i);
    } else {
      OthersKeepInstances(w, s, step);
    }
    hide OnClaim, OnVerify, OnComplete, OnBillingTurn, OnIssue, OnActivate, OnRestamp, OnFinish, OnUpload, OnRelease,
      RemoveInstances, FailJobsOn, IsOpen, CannotClose;
  }

  lemma VerifyRemoves(s: State, id: Id, verify: VerifyOutcome, now: int, i: Id)
    requires i in s.instances
    ensures i !in OnVerify(s, id, verify, now).instances <==> s.instances[i].config == id && IsOpen(s, id) && verify.Fails?
  {
    hide HasJob, ResetJob, Detached, Started;
    assert i in InstancesOf(s, id) <==> s.instances[i].config == id;
  }

  lemma ClosedIff(j: Job)
    ensures Closed(j).None? <==> CannotClose(j)
  {
    assert AllUploaded(j.files) <==> !exists f :: f in j.files && !j.files[f];
  }

  lemma CompleteRemoves(s: State, id: Id, now: int, i: Id)
    requires i in s.instances
    ensures i !in OnComplete(s, id, now).instances <==>
            id in s.jobs && s.jobs[id].finishedAt.None? && s.jobs[id].instance == Some(i) && !CannotClose(s.jobs[id])
  {
    if id in s.jobs {
      ClosedIff(s.jobs[id]);
    }
    hide Closed, CannotClose, Detached;
  }

  lemma BillingRemoves(s: State, id: Id, now: int, i: Id)
    requires i in s.instances
    ensures i !in OnBillingTurn(s, id, now).instances <==> id in s.batch && id in s.jobs && s.batch[id] == Some(i)
  {
    hide Detached;
  }

  lemma DeletionsRemove(w: World, s: State, step: Step, i: Id)
    requires i in s.instances && (step.DeleteByMiner? || step.Purge? || step.Remove?)
    ensures i !in Apply(w, s, step).instances <==> LosesInstance(s, step, i)
  {
    hide Detached, Failed;
  }

  lemma OthersKeepInstances(w: World, s: State, step: Step)
    requires !step.Claim? && !step.Verify? && !IsRemoval(step)
    ensures Apply(w, s, step).instances.Keys == s.instances.Keys
  {
    hide Declared, ResetJob, InstancesOf;
  }

  /** A GPU stays with its instance: in a state that is safe, a row survives exactly if its instance does. */
  lemma RowsFollowInstances(w: World, s: State, step: Step, i: Id, n: Id)
    requires Inv(w, s) && (i, n) in s.rows
    ensures (i, n) in Apply(w, s, step).rows <==> i in Apply(w, s, step).instances
  {
    StepKeeps(w, s, step);
    RowsAreOfInstances(w, Apply(w, s, step));
    RowIsKept(w, s, step, (i, n));
    hide Inv, Apply;
  }

  lemma RowIsKept(w: World, s: State, step: Step, r: (Id, Id))
    requires r in s.rows
    ensures r in Apply(w, s, step).rows || r.0 !in Apply(w, s, step).instances
  {
    hide NodesFit, HasJob, ResetJob, Detached, Started, Failed, Closed, Declared, InstancesOf, Assignments;
    if step.Claim? {
      ClaimKeepsRow(w, s, step.id, step.instance, step.claim, step.now, r);
    }
    hide OnClaim;
  }

  lemma ClaimKeepsRow(w: World, s: State, id: Id, instance: Id, claim: ClaimOutcome, now: int, r: (Id, Id))
    requires r in s.rows
    ensures r in OnClaim(w, s, id, instance, claim, now).rows
  {
    hide NodesFit, ResetJob, Assignments;
  }

  /** A failed verification of a config deletes its instance, every row of it, and no other: exactly the GPUs it held come
      free. */
  lemma RejectionDeletes(w: World, s: State, id: Id, now: int)
    requires Inv(w, s) && IsOpen(s, id)
    ensures var t := Apply(w, s, Verify(id, Fails, now));
            && id in t.configs && t.configs[id].failedAt == Some(now) && t.configs[id].verifiedAt.None?
            && (forall i :: i in s.instances ==> (i in t.instances <==> s.instances[i].config != id))
            && (forall i :: i in t.instances ==> i in s.instances && t.instances[i] == s.instances[i])
            && (forall r :: r in t.rows <==> r in s.rows && s.instances[r.0].config != id)
  {
    RowsAreOfInstances(w, s);
    FailingUnfolds(w, s, id, now);
    hide Apply, Inv, SaveConfig, RemoveInstances, InstancesOf;
    var of := InstancesOf(s, id);
    assert forall i :: i in of <==> i in s.instances && s.instances[i].config == id by { OfConfig(s, id); }
    RemovingWrites(s, of);
    SavingWrites(s, id, s.configs[id].(failedAt := Some(now)));
    SavingWrites(RemoveInstances(s, of), id, s.configs[id].(failedAt := Some(now)));
  }

  lemma OfConfig(s: State, id: Id)
    ensures forall i :: i in InstancesOf(s, id) <==> i in s.instances && s.instances[i].config == id
  {
  }

  lemma FailingUnfolds(w: World, s: State, id: Id, now: int)
    requires IsOpen(s, id)
    ensures var of, c := InstancesOf(s, id), s.configs[id].(failedAt := Some(now));
            Apply(w, s, Verify(id, Fails, now)) == SaveConfig(if of == {} then s else RemoveInstances(s, of), id, c)
  {
    hide SaveConfig, RemoveInstances, InstancesOf, HasJob;
  }

  lemma RemovingWrites(s: State, gone: set<Id>)
    ensures RemoveInstances(s, gone).instances == s.instances - gone && RemoveInstances(s, gone).configs == s.configs
    ensures forall r :: r in RemoveInstances(s, gone).rows <==> r in s.rows && r.0 !in gone
  {
  }

  lemma RemovingKeepsOutcome(s: State, gone: set<Id>, j: Id)
    requires j in s.jobs
    ensures j in RemoveInstances(s, gone).jobs
    ensures SameOutcome(s.jobs[j], RemoveInstances(s, gone).jobs[j])
  {
  }

  // A config that has failed after it was retrieved and has no instance.
  predicate IsRejected(s: State, id: Id) {
    && id in s.configs && s.configs[id].retrievedAt.Some? && s.configs[id].failedAt.Some?
    && forall i :: i in s.instances ==> s.instances[i].config != id
  }

  lemma StaysRejected(w: World, s: State, step: Step, id: Id)
    requires Inv(w, s) && IsRejected(s, id)
    ensures IsRejected(Apply(w, s, step), id)
  {
    var t := Apply(w, s, step);
    ConfigStaysRejected(w, s, step, id);
    StepKeeps(w, s, step);
    forall i | i in t.instances ensures t.instances[i].config != id {
      if i in s.instances {
        InstanceKeepsConfig(w, s, step, i);
      } else {
        InstancesComeFromClaims(w, s, step, i);
        NewInstanceIsUnretrieved(w, s, step.id, step.instance, step.claim, step.now);
      }
    }
  }

  lemma ConfigStaysRejected(w: World, s: State, step: Step, id: Id)
    requires id in s.configs && s.configs[id].retrievedAt.Some? && s.configs[id].failedAt.Some?
    ensures var t := Apply(w, s, step);
            id in t.configs && t.configs[id].retrievedAt.Some? && t.configs[id].failedAt.Some?
  {
    if step.Claim? {
      ClaimKeepsFailed(w, s, step.id, step.instance, step.claim, step.now, id);
    }
    hide OnClaim, HasJob, ResetJob, Detached, Started, Failed, Closed, Declared, InstancesOf;
  }

  lemma ClaimKeepsFailed(w: World, s: State, id: Id, instance: Id, claim: ClaimOutcome, now: int, k: Id)
    requires k in s.configs && s.configs[k].retrievedAt.Some? && s.configs[k].failedAt.Some?
    ensures var t := OnClaim(w, s, id, instance, claim, now);
            k in t.configs && t.configs[k].retrievedAt.Some? && t.configs[k].failedAt.Some?
  {
    hide NodesFit, ResetJob;
  }

  lemma InstanceKeepsConfig(w: World, s: State, step: Step, i: Id)
    requires i in s.instances && i in Apply(w, s, step).instances
    ensures Apply(w, s, step).instances[i].config == s.instances[i].config
  {
    if step.Claim? {
      ClaimKeepsConfigOf(w, s, step.id, step.instance, step.claim, step.now, i);
    }
    hide OnClaim, HasJob, ResetJob, Detached, Started, Failed, Closed, Declared, InstancesOf;
  }

  lemma ClaimKeepsConfigOf(w: World, s: State, id: Id, instance: Id, claim: ClaimOutcome, now: int, i: Id)
    requires i in s.instances
    ensures var t := OnClaim(w, s, id, instance, claim, now);
            i in t.instances && t.instances[i] == s.instances[i]
  {
    hide NodesFit, ResetJob;
  }

  lemma NewInstanceIsUnretrieved(w: World, s: State, id: Id, instance: Id, claim: ClaimOutcome, now: int)
    requires instance !in s.instances && instance in OnClaim(w, s, id, instance, claim, now).instances
    ensures id in s.configs && s.configs[id].retrievedAt.None?
    ensures OnClaim(w, s, id, instance, claim, now).instances[instance].config == id
  {
    hide NodesFit, ResetJob;
  }

  /** After a failed verification the config never has an instance again, whatever follows. */
  lemma {:induction false} RejectedNeverReturns(w: World, steps: seq<Step>, n: nat, id: Id, now: int)
    requires WorldOk(w) && n < |steps| && steps[n] == Verify(id, Fails, now) && IsOpen(Run(w, steps[..n]), id)
    ensures forall i :: i in Run(w, steps).instances ==> Run(w, steps).instances[i].config != id
    ensures IsRejected(Run(w, steps), id)
    decreases |steps|
  {
    hide Apply, Inv, IsOpen;
    var m := |steps| - 1;
    EveryRunIsSafe(w, steps[..m]);
    if n == m {
      NowRejected(w, Run(w, steps[..m]), id, now);
    } else {
      assert steps[..m][..n] == steps[..n];
      RejectedNeverReturns(w, steps[..m], n, id, now);
      StaysRejected(w, Run(w, steps[..m]), steps[m], id);
    }
  }

  lemma NowRejected(w: World, s: State, id: Id, now: int)
    requires Inv(w, s) && IsOpen(s, id)
    ensures IsRejected(Apply(w, s, Verify(id, Fails, now)), id)
  {
    RejectionDeletes(w, s, id, now);
    ConfigOfRejected(s, id, now);
    hide Inv, OnVerify;
  }

  lemma ConfigOfRejected(s: State, id: Id, now: int)
    requires IsOpen(s, id)
    ensures var t := OnVerify(s, id, Fails, now);
            id in t.configs && t.configs[id].retrievedAt.Some?
  {
    hide HasJob, ResetJob, Detached, Started, InstancesOf;
  }

  // ---- Which GPUs a claim may bring ----

  // The same name but for the case of its ASCII letters.
  predicate SameButCase(a: string, b: string) {
    && |a| == |b|
    && forall k :: 0 <= k < |a| ==>
         || a[k] == b[k]
         || ('A' <= a[k] <= 'Z' && b[k] as int == a[k] as int + 32)
         || ('A' <= b[k] <= 'Z' && a[k] as int == b[k] as int + 32)
  }

  lemma LowerIff(a: string, b: string)
    ensures Lower(a) == Lower(b) <==> SameButCase(a, b)
  {
    if Lower(a) == Lower(b) {
      forall k | 0 <= k < |a|
        ensures a[k] == b[k] || ('A' <= a[k] <= 'Z' && b[k] as int == a[k] as int + 32)
                || ('A' <= b[k] <= 'Z' && a[k] as int == b[k] as int + 32)
      {
        assert Lower(a)[k] == Lower(b)[k];
      }
    }
  }

  /** A claim's GPUs are accepted exactly if they are as many as the chute asks for and at least one, each known, verified,
      the miner's own, of an admitted model and in no instance, all on one host, and that is the instance's but for case. */
  lemma GpusAreAcceptedIff(w: World, rows: set<(Id, Id)>, chute: Chute, hotkey: string, host: string, nodes: set<Id>)
    ensures NodesFit(w, rows, chute, hotkey, host, nodes) <==>
            && chute.selector.gpuCount == Some(|nodes|) && nodes != {}
            && (forall n :: n in nodes ==>
                  && n in w.nodes && w.nodes[n].verified && w.nodes[n].hotkey == hotkey
                  && Gpu.IsSuitable(w.catalogue, chute.selector, w.nodes[n].gpu, true)
                  && (forall r :: r in rows ==> r.1 != n) && SameButCase(w.nodes[n].host, host))
            && forall m, n :: m in nodes && n in nodes ==> w.nodes[m].host == w.nodes[n].host
  {
    hide Gpu.IsSuitable, Lower, SameButCase;
    forall n | n in nodes && n in w.nodes
      ensures Lower(w.nodes[n].host) == Lower(host) <==> SameButCase(w.nodes[n].host, host)
    {
      LowerIff(w.nodes[n].host, host);
    }
    assert forall n :: IsTaken(rows, n) <==> !(forall r :: r in rows ==> r.1 != n);
  }

  // ---- Claims ----

  // The first transaction of a claim gets as far as looking at its outcome.
  predicate Reaches(w: World, s: State, id: Id, instance: Id) {
    && id in s.configs && s.configs[id].retrievedAt.None? && s.configs[id].chute in w.chutes && instance !in s.instances
  }

  // The config's job is gone or held; a config that failed before has just taken it from any holder.
  predicate LosesRace(s: State, id: Id)
    requires id in s.configs
  {
    && s.configs[id].job.Some?
    && (s.configs[id].job.value in s.jobs ==>
          s.jobs[s.configs[id].job.value].holder.Some? && s.configs[id].failedAt.None?)
  }

  // The price of the chute can be computed and, for a job, the ports are the job's.
  predicate IsPriced(w: World, c: Config, portsMatch: bool)
    requires c.chute in w.chutes
  {
    w.chutes[c.chute].price.Some? && (c.job.Some? ==> portsMatch)
  }

  predicate Places(w: World, s: State, id: Id, instance: Id, claim: ClaimOutcome) {
    && Reaches(w, s, id, instance) && claim.Proceeds? && !LosesRace(s, id) && IsPriced(w, s.configs[id], claim.portsMatch)
    && NodesFit(w, s.rows, w.chutes[s.configs[id].chute], s.configs[id].hotkey, claim.host, claim.nodes)
    && claim.encrypts
  }

  // The claim is turned down before its GPUs are looked at.
  predicate IsTurnedDown(s: State, id: Id, claim: ClaimOutcome)
    requires id in s.configs
  {
    claim.Rejected? || (claim.Proceeds? && LosesRace(s, id))
  }

  predicate LacksGpus(w: World, s: State, id: Id, instance: Id, claim: ClaimOutcome) {
    && Reaches(w, s, id, instance) && claim.Proceeds? && !LosesRace(s, id) && IsPriced(w, s.configs[id], claim.portsMatch)
    && !NodesFit(w, s.rows, w.chutes[s.configs[id].chute], s.configs[id].hotkey, claim.host, claim.nodes)
  }

  /** What a claim leaves of its config: placed or turned down it is retrieved, without acceptable GPUs it is not and can
      be claimed again; it has failed in the latter two; and anything else leaves it as it was. */
  lemma ClaimDecides(w: World, s: State, id: Id, instance: Id, claim: ClaimOutcome, now: int)
    requires id in s.configs
    ensures var t, c := OnClaim(w, s, id, instance, claim, now), s.configs[id];
            && t.configs.Keys == s.configs.Keys
            && (forall k :: k in s.configs && k != id ==> t.configs[k] == s.configs[k])
            && t.configs[id] == (if Places(w, s, id, instance, claim) then c.(retrievedAt := Some(now))
                                 else if Reaches(w, s, id, instance) && IsTurnedDown(s, id, claim)
                                 then c.(retrievedAt := Some(now), failedAt := Some(now))
                                 else if LacksGpus(w, s, id, instance, claim) then c.(failedAt := Some(now))
                                 else c)
            && (instance !in s.instances ==> (instance in t.instances <==> Places(w, s, id, instance, claim)))
  {
    hide NodesFit, SaveConfig, Placed;
    if Reaches(w, s, id, instance) {
      var c := Retrieved(s.configs[id], now);
      var t := SaveConfig(s, id, c);
      SavingWrites(s, id, c);
      SavingWrites(s, id, c.(failedAt := Some(now)));
      SavingWrites(s, id, s.configs[id].(failedAt := Some(now)));
      RaceIsLostIff(s, id, now);
      if Places(w, s, id, instance, claim) {
        var price := w.chutes[c.chute].price.value;
        PlacingWrites(t, id, c, instance, claim.host, claim.nodes, price);
        SavingWrites(Placed(t, id, c, instance, claim.host, claim.nodes, price), id, c);
      }
    }
  }

  lemma SavingWrites(s: State, id: Id, c: Config)
    ensures SaveConfig(s, id, c).configs == s.configs[id := c] && SaveConfig(s, id, c).instances == s.instances
    ensures SaveConfig(s, id, c).rows == s.rows && SaveConfig(s, id, c).jobs.Keys == s.jobs.Keys
  {
  }

  lemma RaceIsLostIff(s: State, id: Id, now: int)
    requires id in s.configs
    ensures var c := Retrieved(s.configs[id], now);
            var t := SaveConfig(s, id, c);
            LosesRace(s, id) <==> c.job.Some? && !(c.job.value in t.jobs && t.jobs[c.job.value].holder.None?)
  {
  }

  lemma PlacingWrites(s: State, id: Id, c: Config, instance: Id, host: string, nodes: set<Id>, price: real)
    requires c.job.Some? ==> c.job.value in s.jobs
    ensures var t := Placed(s, id, c, instance, host, nodes, price);
            t.configs == s.configs && t.instances.Keys == s.instances.Keys + {instance}
  {
  }

  /** What a placed instance is: the config's, with its chute and miner, the claim's host and GPUs and the chute's price,
      neither active nor verified; and its miner holds the job, unless the config had failed before. */
  lemma PlacedAsClaimed(w: World, s: State, id: Id, instance: Id, claim: ClaimOutcome, now: int)
    requires Inv(w, s) && Places(w, s, id, instance, claim)
    ensures var t, c := OnClaim(w, s, id, instance, claim, now), s.configs[id];
            && t.instances == s.instances[instance := Instance(c.chute, id, c.hotkey, claim.host, false, false,
                                                               w.chutes[c.chute].price.value)]
            && (forall r :: r in t.rows <==> r in s.rows || (r.0 == instance && r.1 in claim.nodes))
            && (c.job.Some? && c.job.value in t.jobs ==>
                  if c.failedAt.None? then t.jobs[c.job.value].holder == Some(c.hotkey)
                                           && t.jobs[c.job.value].instance == Some(instance)
                  else t.jobs[c.job.value].holder.None? && t.jobs[c.job.value].instance.None?)
  {
    hide NodesFit, Inv;
    assert forall r :: r in Assignments(instance, claim.nodes) <==> r.0 == instance && r.1 in claim.nodes by {
      forall r: (Id, Id) | r.0 == instance && r.1 in claim.nodes ensures r in Assignments(instance, claim.nodes) {
        assert r == (instance, r.1);
      }
    }
    hide Assignments;
  }

  // ---- Configs ----

  predicate Verifies(s: State, id: Id, verify: VerifyOutcome) {
    && IsOpen(s, id) && verify.Passes?
    && (exists i :: i in s.instances && s.instances[i].config == id)
    && (verify.portsOpen
        || forall j :: j in s.jobs && s.jobs[j].instance.Some? && s.jobs[j].instance.value in s.instances ==>
             s.instances[s.jobs[j].instance.value].config != id)
  }

  predicate Refuses(s: State, id: Id, verify: VerifyOutcome) {
    && IsOpen(s, id) && !verify.Throws?
    && (verify.Fails? || forall i :: i in s.instances ==> s.instances[i].config != id)
  }

  /** What a verification makes of its config: verified if it passes for an instance, with the ports of a job open; failed
      if it does not pass or finds no instance; and as it was if it raises. */
  lemma VerificationDecides(s: State, id: Id, verify: VerifyOutcome, now: int)
    requires id in s.configs
    ensures var t, c := OnVerify(s, id, verify, now), s.configs[id];
            && t.configs.Keys == s.configs.Keys
            && (forall k :: k in s.configs && k != id ==> t.configs[k] == s.configs[k])
            && t.configs[id] == if Verifies(s, id, verify) then c.(verifiedAt := Some(now))
                                else if Refuses(s, id, verify) then c.(failedAt := Some(now)) else c
  {
    var of := InstancesOf(s, id);
    assert forall i :: i in of <==> i in s.instances && s.instances[i].config == id;
    assert HasJob(s, of) <==> !(forall j :: j in s.jobs && s.jobs[j].instance.Some? && s.jobs[j].instance.value in s.instances ==>
                                  s.instances[s.jobs[j].instance.value].config != id);
    hide HasJob, InstancesOf, ResetJob, Detached, Started;
  }

  /** No other handler changes a config but a restamp, which moves the time it was retrieved; and only a request for a
      launch config adds one, for a chute that exists: a scalable one, or one with the job asked for, if the job's history
      is neither full nor has the miner, who then ends it. */
  lemma ConfigsChange(w: World, s: State, step: Step)
    requires !step.Claim? && !step.Verify?
    ensures forall k :: k in s.configs ==>
              && k in Apply(w, s, step).configs
              && Apply(w, s, step).configs[k]
                 == if step.Restamp? && step.id == k && k in s.stamping then s.configs[k].(retrievedAt := Some(step.now))
                    else s.configs[k]
    ensures forall k :: k !in s.configs ==> (k in Apply(w, s, step).configs <==> IsIssued(w, s, step, k))
    ensures forall k :: k !in s.configs && k in Apply(w, s, step).configs ==>
              && Apply(w, s, step).configs[k] == Config(step.chute, step.job, step.hotkey, None, None, None)
              && (step.job.Some? ==>
                    && step.job.value in Apply(w, s, step).jobs
                    && Apply(w, s, step).jobs[step.job.value].history == s.jobs[step.job.value].history + [step.hotkey])
  {
    hide HasJob, ResetJob, Detached, Failed, Closed, Declared, InstancesOf;
  }

  predicate IsIssued(w: World, s: State, step: Step, k: Id) {
    && step.Issue? && step.id == k && step.chute in w.chutes
    && if step.job.None? then step.scalable
       else && step.job.value in s.jobs && s.jobs[step.job.value].chute == step.chute
            && |s.jobs[step.job.value].history| < 15 && step.hotkey !in s.jobs[step.job.value].history
  }

  /** An instance becomes active exactly by a permitted activation of its verified config, verified exactly by a
      verification of it, and is changed by nothing else. */
  lemma InstanceChanges(w: World, s: State, step: Step, i: Id)
    requires i in s.instances && i in Apply(w, s, step).instances
    ensures Apply(w, s, step).instances[i]
            == if step.Activate? && step.permitted && step.id == s.instances[i].config
                  && step.id in s.configs && s.configs[step.id].verifiedAt.Some? then s.instances[i].(active := true)
               else if step.Verify? && step.id == s.instances[i].config && Verifies(s, step.id, step.verify)
               then s.instances[i].(verified := true)
               else s.instances[i]
  {
    if step.Claim? {
      ClaimKeepsConfigOf(w, s, step.id, step.instance, step.claim, step.now, i);
    } else if step.Verify? {
      VerifyMarks(s, step.id, step.verify, step.now, i);
    } else {
      OthersKeepInstance(w, s, step, i);
    }
    hide OnClaim, OnVerify, OnIssue, OnComplete, OnBillingTurn, OnActivate, RemoveInstances, FailJobsOn, Verifies, OnFinish,
      OnUpload, OnRelease, OnRestamp;
  }

  lemma VerifyMarks(s: State, id: Id, verify: VerifyOutcome, now: int, i: Id)
    requires i in s.instances && i in OnVerify(s, id, verify, now).instances
    ensures OnVerify(s, id, verify, now).instances[i]
            == if id == s.instances[i].config && Verifies(s, id, verify) then s.instances[i].(verified := true)
               else s.instances[i]
  {
    var of := InstancesOf(s, id);
    assert forall k :: k in of <==> k in s.instances && s.instances[k].config == id;
    assert HasJob(s, of) <==> !(forall j :: j in s.jobs && s.jobs[j].instance.Some? && s.jobs[j].instance.value in s.instances ==>
                                  s.instances[s.jobs[j].instance.value].config != id);
    hide HasJob, InstancesOf, ResetJob, Detached, Started;
  }

  lemma OthersKeepInstance(w: World, s: State, step: Step, i: Id)
    requires i in s.instances && i in Apply(w, s, step).instances && !step.Claim? && !step.Verify?
    ensures Apply(w, s, step).instances[i]
            == if step.Activate? && step.permitted && step.id == s.instances[i].config
                  && step.id in s.configs && s.configs[step.id].verifiedAt.Some? then s.instances[i].(active := true)
               else s.instances[i]
  {
    hide ResetJob, Detached, Failed, Closed, Declared;
  }

  // ---- Jobs ----

  /** A job finishes exactly if the miner of its instance deletes that, it is completed without raising, or the billing
      loop gets to it: with an error, the status its files allow, or the mark of the billing. */
  lemma JobFinishesIff(w: World, s: State, step: Step, j: Id)
    requires j in s.jobs && s.jobs[j].finishedAt.None?
    ensures j in Apply(w, s, step).jobs
    ensures Apply(w, s, step).jobs[j].finishedAt.Some? <==>
            match step
            case DeleteByMiner(i, hotkey, _) =>
              i in s.instances && s.instances[i].hotkey == hotkey && s.jobs[j].instance == Some(i)
            case Complete(id, _) => id == j && !CannotClose(s.jobs[j])
            case BillingTurn(id, _) => id == j && j in s.batch
            case _ => false
    ensures Apply(w, s, step).jobs[j].finishedAt.Some? ==>
              var k := Apply(w, s, step).jobs[j];
              && k.finishedAt == Some(step.now) && k.files == s.jobs[j].files
              && k.status == if step.DeleteByMiner? then "error"
                             else if step.BillingTurn? then "billing_termination"
                             else if s.jobs[j].files == map[] || !("complete" <= s.jobs[j].status) then s.jobs[j].status
                             else if forall f :: f in s.jobs[j].files ==> s.jobs[j].files[f] then "complete"
                             else "partial_failure"
  {
    hide Apply;
    if step.Claim? {
      ClaimKeepsOutcomes(w, s, step.id, step.instance, step.claim, step.now, j);
    } else if step.Restamp? {
      RestampKeepsOutcomes(s, step.id, step.now, j);
    } else if step.Verify? {
      VerifyKeepsOutcomes(s, step.id, step.verify, step.now, j);
    } else if step.Issue? || step.Activate? {
      OthersKeepOutcomes(w, s, step, j);
    } else if step.Complete? {
      CompletionFinishes(s, step.id, step.now, j);
    } else if IsRemoval(step) {
      RemovalFinishes(w, s, step, j);
    } else {
      JobStepsDoNotFinish(w, s, step, j);
    }
    ApplyUnfolds(w, s, step);
    hide OnClaim, OnRestamp, OnVerify, OnIssue, OnActivate, OnFinish, OnUpload, OnComplete, OnRelease, OnBillingTurn,
      RemoveInstances, FailJobsOn, CannotClose;
  }

  lemma ApplyUnfolds(w: World, s: State, step: Step)
    ensures step.Claim? ==> Apply(w, s, step) == OnClaim(w, s, step.id, step.instance, step.claim, step.now)
    ensures step.Restamp? ==> Apply(w, s, step) == OnRestamp(s, step.id, step.now)
    ensures step.Verify? ==> Apply(w, s, step) == OnVerify(s, step.id, step.verify, step.now)
    ensures step.Complete? ==> Apply(w, s, step) == OnComplete(s, step.id, step.now)
  {
  }

  lemma CompletionFinishes(s: State, id: Id, now: int, j: Id)
    requires j in s.jobs && s.jobs[j].finishedAt.None?
    ensures var t := OnComplete(s, id, now);
            && j in t.jobs && (t.jobs[j].finishedAt.Some? <==> id == j && !CannotClose(s.jobs[j]))
            && (t.jobs[j].finishedAt.Some? ==>
                  && t.jobs[j].finishedAt == Some(now) && t.jobs[j].files == s.jobs[j].files
                  && t.jobs[j].status == if s.jobs[j].files == map[] || !("complete" <= s.jobs[j].status) then s.jobs[j].status
                                         else if forall f :: f in s.jobs[j].files ==> s.jobs[j].files[f] then "complete"
                                         else "partial_failure")
  {
    hide RemoveInstances;
    if id in s.jobs && s.jobs[id].finishedAt.None? && Closed(s.jobs[id]).Some? {
      ClosedStatus(s.jobs[id]);
      var k := Closed(s.jobs[id]).value.(finishedAt := Some(now));
      hide Closed, CannotClose, AllUploaded;
      RemovingKeepsOutcome(SaveJob(s, id, k), {s.jobs[id].instance.GetOr("")}, j);
      assert RemoveFor(SaveJob(s, id, k), s.jobs[id].instance)
          == if s.jobs[id].instance.Some? then RemoveInstances(SaveJob(s, id, k), {s.jobs[id].instance.GetOr("")})
             else SaveJob(s, id, k);
    } else if id in s.jobs {
      ClosedIff(s.jobs[id]);
    }
  }

  lemma ClosedStatus(j: Job)
    requires Closed(j).Some?
    ensures var k := Closed(j).value;
            && !CannotClose(j) && k.files == j.files
            && k.status == if j.files == map[] || !("complete" <= j.status) then j.status
                           else if forall f :: f in j.files ==> j.files[f] then "complete"
                           else "partial_failure"
  {
    ClosedIff(j);
  }

  lemma RemovalFinishes(w: World, s: State, step: Step, j: Id)
    requires j in s.jobs && s.jobs[j].finishedAt.None? && IsRemoval(step) && !step.Complete?
    ensures var t := Apply(w, s, step);
            && j in t.jobs && t.jobs[j].files == s.jobs[j].files
            && (t.jobs[j].finishedAt.Some? <==>
                  || (step.DeleteByMiner? && step.instance in s.instances && s.instances[step.instance].hotkey == step.hotkey
                      && s.jobs[j].instance == Some(step.instance))
                  || (step.BillingTurn? && step.id == j && j in s.batch))
            && (t.jobs[j].finishedAt.Some? ==>
                  && t.jobs[j].finishedAt == Some(step.now)
                  && t.jobs[j].status == if step.DeleteByMiner? then "error" else "billing_termination")
  {
    hide RemoveInstances;
    if step.DeleteByMiner? {
      RemovingKeepsOutcome(FailJobsOn(s, step.instance, step.now), {step.instance}, j);
    } else if step.Purge? {
      PurgeFailsNone(s, step.instance, step.now, j);
    } else if step.Remove? {
      RemovingKeepsOutcome(s, {step.instance}, j);
    } else {
      BillingFinishes(s, step.id, step.now, j);
    }
    hide OnBillingTurn;
  }

  // The cascade has cleared the reference by which the job would be found.
  lemma PurgeFailsNone(s: State, i: Id, now: int, j: Id)
    requires j in s.jobs
    ensures var t := FailJobsOn(RemoveInstances(s, {i}), i, now);
            j in t.jobs && SameOutcome(s.jobs[j], t.jobs[j])
  {
  }

  lemma BillingFinishes(s: State, id: Id, now: int, j: Id)
    requires j in s.jobs && s.jobs[j].finishedAt.None?
    ensures var t := OnBillingTurn(s, id, now);
            && j in t.jobs && t.jobs[j].files == s.jobs[j].files
            && (t.jobs[j].finishedAt.Some? <==> id == j && j in s.batch)
            && (t.jobs[j].finishedAt.Some? ==> t.jobs[j].finishedAt == Some(now) && t.jobs[j].status == "billing_termination")
  {
    hide RemoveInstances;
    if id in s.batch && id in s.jobs {
      var t := SaveJob(s, id, s.jobs[id].(status := "billing_termination", hasDetail := true, finishedAt := Some(now)));
      RemovingKeepsOutcome(t, {s.batch[id].GetOr("")}, j);
      assert RemoveFor(t, s.batch[id]) == if s.batch[id].Some? then RemoveInstances(t, {s.batch[id].GetOr("")}) else t;
    }
  }

  lemma JobStepsDoNotFinish(w: World, s: State, step: Step, j: Id)
    requires j in s.jobs && s.jobs[j].finishedAt.None?
    requires step.CreateJob? || step.Finish? || step.Upload? || step.Release? || step.BillingSelect?
    ensures j in Apply(w, s, step).jobs && Apply(w, s, step).jobs[j].finishedAt.None?
  {
    hide Declared;
  }

  /** A finished or unknown job is not written by a finishing request or an upload; otherwise the former sets the status,
      pending uploads if it is complete with files, and declares exactly the files named, none uploaded; and the latter
      sets one flag of a declared file. */
  lemma FilesAreWritten(w: World, s: State, id: Id, status: string, filenames: seq<string>, detail: bool, filename: string)
    requires id in s.jobs && s.jobs[id].finishedAt.None?
    ensures var t := Apply(w, s, Finish(id, status, filenames, detail));
            && t == s.(jobs := t.jobs) && t.jobs.Keys == s.jobs.Keys
            && (forall k :: k in s.jobs && k != id ==> t.jobs[k] == s.jobs[k])
            && t.jobs[id].status == (if status == "complete" && |filenames| > 0 then "complete_pending_uploads" else status)
            && t.jobs[id].hasDetail == detail
            && forall f :: (f in t.jobs[id].files <==> f in filenames) && (f in t.jobs[id].files ==> !t.jobs[id].files[f])
    ensures var t := Apply(w, s, Upload(id, filename));
            && t == s.(jobs := t.jobs) && t.jobs.Keys == s.jobs.Keys
            && (forall k :: k in s.jobs && k != id ==> t.jobs[k] == s.jobs[k])
            && t.jobs[id] == s.jobs[id].(files := t.jobs[id].files) && t.jobs[id].files.Keys == s.jobs[id].files.Keys
            && forall f :: f in s.jobs[id].files ==> (t.jobs[id].files[f] <==> f == filename || s.jobs[id].files[f])
  {
  }

  /** A job starts exactly when its instance is verified. */
  lemma JobStartsIff(w: World, s: State, step: Step, j: Id)
    requires Inv(w, s) && j in s.jobs
    ensures j in Apply(w, s, step).jobs
    ensures Apply(w, s, step).jobs[j].startedAt
            == if step.Verify? && Verifies(s, step.id, step.verify) && s.jobs[j].instance.Some?
                  && s.jobs[j].instance.value in s.instances && s.instances[s.jobs[j].instance.value].config == step.id
               then Some(step.now) else s.jobs[j].startedAt
  {
    if step.Verify? {
      VerifyStarts(s, step.id, step.verify, step.now, j);
    } else if step.Claim? {
      ClaimKeepsStart(w, s, step.id, step.instance, step.claim, step.now, j);
    } else {
      OthersKeepStart(w, s, step, j);
    }
    hide OnClaim, OnVerify, OnIssue, OnComplete, OnBillingTurn, OnActivate, RemoveInstances, FailJobsOn, Verifies, OnFinish,
      OnUpload, OnRelease, OnRestamp, Inv;
  }

  lemma VerifyStarts(s: State, id: Id, verify: VerifyOutcome, now: int, j: Id)
    requires j in s.jobs
    ensures j in OnVerify(s, id, verify, now).jobs
    ensures OnVerify(s, id, verify, now).jobs[j].startedAt
            == if Verifies(s, id, verify) && s.jobs[j].instance.Some? && s.jobs[j].instance.value in s.instances
                  && s.instances[s.jobs[j].instance.value].config == id
               then Some(now) else s.jobs[j].startedAt
  {
    var of := InstancesOf(s, id);
    assert forall k :: k in of <==> k in s.instances && s.instances[k].config == id;
    assert HasJob(s, of) <==> !(forall j :: j in s.jobs && s.jobs[j].instance.Some? && s.jobs[j].instance.value in s.instances ==>
                                  s.instances[s.jobs[j].instance.value].config != id);
    hide HasJob, InstancesOf;
  }

  lemma ClaimKeepsStart(w: World, s: State, id: Id, instance: Id, claim: ClaimOutcome, now: int, j: Id)
    requires j in s.jobs
    ensures j in OnClaim(w, s, id, instance, claim, now).jobs
    ensures OnClaim(w, s, id, instance, claim, now).jobs[j].startedAt == s.jobs[j].startedAt
  {
    hide NodesFit;
  }

  lemma OthersKeepStart(w: World, s: State, step: Step, j: Id)
    requires j in s.jobs && !step.Verify? && !step.Claim?
    ensures j in Apply(w, s, step).jobs && Apply(w, s, step).jobs[j].startedAt == s.jobs[j].startedAt
  {
    if step.Complete? {
      if step.id in s.jobs {
        ClosedKeepsStart(s.jobs[step.id]);
      }
    }
    hide Closed, Declared, InstancesOf;
  }

  lemma ClosedKeepsStart(j: Job)
    ensures Closed(j).Some? ==> Closed(j).value.startedAt == j.startedAt
  {
  }

  /** The billing loop selects exactly the unfinished jobs of users who are broke, each with its instance. */
  lemma BatchIsUnfinished(w: World, s: State, broke: set<Id>)
    ensures var t := Apply(w, s, BillingSelect(broke));
            && t == s.(batch := t.batch)
            && forall j :: (j in t.batch <==> j in broke && j in s.jobs && s.jobs[j].finishedAt.None?)
                           && (j in t.batch ==> t.batch[j] == s.jobs[j].instance)
  {
  }

  /** A claim's second transaction is owed exactly from when it places an instance to when it runs; and a selected job is in
      the batch until the billing loop gets to it or selects anew. */
  lemma WhatIsOwed(w: World, s: State, step: Step, id: Id)
    ensures id in s.configs ==>
              (id in Apply(w, s, step).stamping <==>
                 || (step.Claim? && step.id == id && Places(w, s, id, step.instance, step.claim))
                 || (id in s.stamping && !(step.Restamp? && step.id == id)))
    ensures id in s.jobs && !step.BillingSelect? ==>
              (id in Apply(w, s, step).batch <==> id in s.batch && !(step.BillingTurn? && step.id == id))
  {
    if step.Claim? {
      ClaimOwes(w, s, step.id, step.instance, step.claim, step.now, id);
    } else {
      OthersOwe(w, s, step, id);
    }
    hide OnClaim, OnVerify, OnIssue, OnComplete, OnBillingTurn, OnActivate, RemoveInstances, FailJobsOn, Places, OnFinish,
      OnUpload, OnRelease, OnRestamp;
  }

  lemma ClaimOwes(w: World, s: State, k: Id, instance: Id, claim: ClaimOutcome, now: int, id: Id)
    ensures OnClaim(w, s, k, instance, claim, now).batch == s.batch
    ensures id in OnClaim(w, s, k, instance, claim, now).stamping <==>
            id in s.stamping || (k == id && Places(w, s, id, instance, claim))
  {
    hide NodesFit;
    if k in s.configs {
      RaceIsLostIff(s, k, now);
    }
  }

  lemma OthersOwe(w: World, s: State, step: Step, id: Id)
    requires !step.Claim?
    ensures id in s.configs ==>
              (id in Apply(w, s, step).stamping <==> id in s.stamping && !(step.Restamp? && step.id == id))
    ensures id in s.jobs && !step.BillingSelect? ==>
              (id in Apply(w, s, step).batch <==> id in s.batch && !(step.BillingTurn? && step.id == id))
  {
    hide HasJob, ResetJob, Detached, Failed, Closed, Declared, InstancesOf, Started;
  }

  /** A job appears exactly when it is created for a chute that exists: free, pending and without history or files. */
  lemma JobIsCreatedIff(w: World, s: State, step: Step, j: Id)
    requires j !in s.jobs
    ensures j in Apply(w, s, step).jobs <==> step.CreateJob? && step.id == j && step.chute in w.chutes
    ensures j in Apply(w, s, step).jobs ==>
              Apply(w, s, step).jobs[j] == Job(step.chute, None, None, [], "pending", false, map[], None, None)
  {
    if step.Claim? {
      ClaimAddsNoJob(w, s, step.id, step.instance, step.claim, step.now);
    } else if !step.CreateJob? {
      OthersAddNoJob(w, s, step, j);
    }
    hide OnClaim, OnVerify, OnIssue, OnComplete, OnBillingTurn, OnActivate, RemoveInstances, FailJobsOn, OnFinish, OnUpload,
      OnRelease, OnRestamp;
  }

  lemma ClaimAddsNoJob(w: World, s: State, id: Id, instance: Id, claim: ClaimOutcome, now: int)
    ensures OnClaim(w, s, id, instance, claim, now).jobs.Keys == s.jobs.Keys
  {
    hide NodesFit;
  }

  lemma OthersAddNoJob(w: World, s: State, step: Step, j: Id)
    requires j !in s.jobs && !step.Claim? && !step.CreateJob?
    ensures j !in Apply(w, s, step).jobs
  {
    hide HasJob, Detached, Failed, Closed, Declared, InstancesOf, Started;
  }
}
