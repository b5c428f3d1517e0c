/** What every run of the launch and job handlers keeps. */
module LaunchSafety {
  import opened Base
  import opened Launch
  import Gpu

  // ---- The invariant, one entity at a time ----

  ghost predicate WorldOk(w: World) {
    && Gpu.Priced(w.catalogue)
    && forall c :: c in w.chutes ==> w.chutes[c].price == Gpu.HourlyPrice(w.catalogue, w.chutes[c].selector)
  }

  // Never both verified and failed, and verified only after it was claimed.
  predicate ConfigSane(c: Config) {
    && (c.verifiedAt.Some? ==> c.failedAt.None? && c.retrievedAt.Some?)
  }

  // The miner of a config for a job is in the job's history.
  predicate ConfigOk(w: World, jobs: map<Id, Job>, c: Config) {
    && ConfigSane(c) && c.chute in w.chutes
    && (c.job.Some? ==> c.job.value in jobs && jobs[c.job.value].chute == c.chute && c.hotkey in jobs[c.job.value].history)
  }

  ghost predicate ConfigsOk(w: World, s: State) {
    forall c :: c in s.configs ==> ConfigOk(w, s.jobs, s.configs[c])
  }

  // Active only if verified, and verified exactly if its config is; the config was claimed.
  predicate InstanceOk(configs: map<Id, Config>, i: Instance) {
    && i.config in configs && configs[i.config].chute == i.chute && configs[i.config].hotkey == i.hotkey
    && configs[i.config].retrievedAt.Some?
    && (i.active ==> i.verified) && (i.verified <==> configs[i.config].verifiedAt.Some?)
  }

  ghost predicate InstancesOk(s: State) {
    forall i :: i in s.instances ==> InstanceOk(s.configs, s.instances[i])
  }

  ghost predicate OnePerConfig(s: State) {
    forall i, j :: i in s.instances && j in s.instances && s.instances[i].config == s.instances[j].config ==> i == j
  }

  // Every claim that created an instance is of a different config, and left the config retrieved.
  ghost predicate ClaimsOk(s: State) {
    NoDuplicates(s.claims) && forall c :: c in s.claims ==> c in s.configs && s.configs[c].retrievedAt.Some?
  }

  function NodesOf(rows: set<(Id, Id)>, instance: Id): set<Id> {
    set r | r in rows && r.0 == instance :: r.1
  }

  // A GPU the miner owns, verified and suitable, on the given host.
  predicate GpuOk(w: World, i: Instance, n: Id)
    requires i.chute in w.chutes
  {
    && n in w.nodes && w.nodes[n].hotkey == i.hotkey && w.nodes[n].verified
    && Gpu.IsSuitable(w.catalogue, w.chutes[i.chute].selector, w.nodes[n].gpu, true)
    && Lower(w.nodes[n].host) == Lower(i.host)
  }

  predicate PlacementOk(w: World, i: Instance, nodes: set<Id>) {
    && i.chute in w.chutes && w.chutes[i.chute].selector.gpuCount == Some(|nodes|)
    && w.chutes[i.chute].price == Some(i.hourlyRate) && nodes != {}
    && (forall n :: n in nodes ==> GpuOk(w, i, n))
    && forall m, n :: m in nodes && n in nodes ==> w.nodes[m].host == w.nodes[n].host
  }

  ghost predicate PlacementsOk(w: World, s: State) {
    forall i :: i in s.instances ==> PlacementOk(w, s.instances[i], NodesOf(s.rows, i))
  }

  // No GPU has two rows, and every row is of an instance that exists.
  ghost predicate RowsOk(s: State) {
    && (forall q, r :: q in s.rows && r in s.rows && q.1 == r.1 ==> q.0 == r.0)
    && forall r :: r in s.rows ==> r.0 in s.instances
  }

  predicate JobSane(j: Job) {
    && |j.history| <= MAX_HISTORY && NoDuplicates(j.history)
    && (j.holder.Some? ==> j.holder.value in j.history)
    && (j.status == "complete" ==> AllUploaded(j.files))
  }

  // The instance of a job was launched for that job.
  predicate RunsFor(s: State, id: Id, instance: Id) {
    && instance in s.instances && s.instances[instance].config in s.configs
    && s.configs[s.instances[instance].config].job == Some(id)
  }

  ghost predicate JobsOk(s: State) {
    && (forall j :: j in s.jobs ==> JobSane(s.jobs[j]))
    && forall j :: j in s.jobs && s.jobs[j].instance.Some? ==> RunsFor(s, j, s.jobs[j].instance.value)
  }

  ghost predicate Inv(w: World, s: State) {
    && ConfigsOk(w, s) && InstancesOk(s) && OnePerConfig(s) && ClaimsOk(s)
    && PlacementsOk(w, s) && RowsOk(s) && JobsOk(s)
  }

  // ---- The changes the handlers are made of ----

  // The same config, further along.
  predicate Advances(c: Config, d: Config) {
    && d.chute == c.chute && d.job == c.job && d.hotkey == c.hotkey && d.verifiedAt == c.verifiedAt
    && (c.retrievedAt.Some? ==> d.retrievedAt.Some?)
  }

  lemma SaveConfigKeeps(w: World, s: State, id: Id, c: Config)
    requires Inv(w, s) && id in s.configs && Advances(s.configs[id], c) && ConfigSane(c)
    ensures Inv(w, SaveConfig(s, id, c))
  {
    hide PlacementOk, AllUploaded;
    var t := SaveConfig(s, id, c);
    assert PlacementsOk(w, t);
    forall d | d in t.configs ensures ConfigOk(w, t.jobs, t.configs[d]) {
      assert ConfigOk(w, s.jobs, s.configs[d]);
    }
    forall j | j in t.jobs ensures JobSane(t.jobs[j]) {
      assert JobSane(s.jobs[j]);
    }
    forall i | i in t.instances ensures InstanceOk(t.configs, t.instances[i]) {
      assert InstanceOk(s.configs, s.instances[i]);
    }
  }

  lemma RemoveKeepsPlacements(w: World, s: State, gone: set<Id>)
    requires PlacementsOk(w, s) && RowsOk(s)
    ensures PlacementsOk(w, RemoveInstances(s, gone)) && RowsOk(RemoveInstances(s, gone))
  {
    hide PlacementOk;
    var t := RemoveInstances(s, gone);
    forall i | i in t.instances ensures PlacementOk(w, t.instances[i], NodesOf(t.rows, i)) {
      assert NodesOf(t.rows, i) == NodesOf(s.rows, i);
    }
  }

  lemma RemoveKeepsInstances(s: State, gone: set<Id>)
    requires InstancesOk(s) && OnePerConfig(s) && ClaimsOk(s)
    ensures var t := RemoveInstances(s, gone);
            InstancesOk(t) && OnePerConfig(t) && ClaimsOk(t)
  {
    hide InstanceOk, NoDuplicates, Detached;
  }

  lemma RemoveKeepsJobs(w: World, s: State, gone: set<Id>)
    requires ConfigsOk(w, s) && JobsOk(s)
    ensures ConfigsOk(w, RemoveInstances(s, gone)) && JobsOk(RemoveInstances(s, gone))
  {
    hide AllUploaded, NoDuplicates;
    var t := RemoveInstances(s, gone);
    forall c | c in t.configs ensures ConfigOk(w, t.jobs, t.configs[c]) {
      assert ConfigOk(w, s.jobs, s.configs[c]);
    }
    forall j | j in t.jobs ensures JobSane(t.jobs[j]) {
      assert JobSane(s.jobs[j]);
    }
    forall j | j in t.jobs && t.jobs[j].instance.Some? ensures RunsFor(t, j, t.jobs[j].instance.value) {
      assert RunsFor(s, j, s.jobs[j].instance.value);
    }
  }

  lemma RemoveKeeps(w: World, s: State, gone: set<Id>)
    requires Inv(w, s)
    ensures Inv(w, RemoveInstances(s, gone))
  {
    hide RemoveInstances, ConfigsOk, JobsOk, PlacementsOk, RowsOk, InstancesOk, OnePerConfig, ClaimsOk;
    RemoveKeepsPlacements(w, s, gone);
    RemoveKeepsInstances(s, gone);
    RemoveKeepsJobs(w, s, gone);
  }

  // Jobs keep their chute and lose nobody from their history.
  predicate JobContinues(j: Job, k: Job) {
    k.chute == j.chute && j.history <= k.history && (k.instance == j.instance || k.instance == None)
  }

  lemma JobsChange(w: World, s: State, jobs: map<Id, Job>)
    requires Inv(w, s) && s.jobs.Keys <= jobs.Keys
    requires forall j :: j in jobs ==> JobSane(jobs[j])
    requires forall j :: j in s.jobs ==> JobContinues(s.jobs[j], jobs[j])
    requires forall j :: j in jobs && j !in s.jobs ==> jobs[j].instance == None
    ensures Inv(w, s.(jobs := jobs))
  {
    hide PlacementOk, JobSane, NodesOf;
    var t := s.(jobs := jobs);
    assert PlacementsOk(w, t);
    forall c | c in t.configs ensures ConfigOk(w, t.jobs, t.configs[c]) {
      assert ConfigOk(w, s.jobs, s.configs[c]);
      if t.configs[c].job.Some? {
        var j := t.configs[c].job.value;
        assert JobContinues(s.jobs[j], jobs[j]);
      }
    }
    forall j | j in t.jobs && t.jobs[j].instance.Some? ensures RunsFor(t, j, t.jobs[j].instance.value) {
      assert JobContinues(s.jobs[j], jobs[j]);
      assert RunsFor(s, j, s.jobs[j].instance.value);
    }
  }

  lemma SaveJobKeeps(w: World, s: State, id: Id, j: Job)
    requires Inv(w, s) && JobSane(j)
    requires id in s.jobs ==> JobContinues(s.jobs[id], j)
    requires id !in s.jobs ==> j.instance == None
    ensures Inv(w, SaveJob(s, id, j))
  {
    hide JobSane, PlacementsOk, ConfigsOk, InstancesOk, OnePerConfig, ClaimsOk, RowsOk;
    JobsChange(w, s, s.jobs[id := j]);
  }

  lemma FailJobsKeeps(w: World, s: State, instance: Id, now: int)
    requires Inv(w, s)
    ensures Inv(w, FailJobsOn(s, instance, now))
  {
    hide PlacementsOk, ConfigsOk, InstancesOk, OnePerConfig, ClaimsOk, RowsOk;
    var t := FailJobsOn(s, instance, now);
    forall j | j in t.jobs ensures JobSane(t.jobs[j]) {
      assert JobSane(s.jobs[j]);
    }
    JobsChange(w, s, t.jobs);
  }

  // ---- Placing an instance ----

  lemma PlacementsGrow(w: World, s: State, instance: Id, host: string, nodes: set<Id>, c: Config, id: Id)
    requires PlacementsOk(w, s) && RowsOk(s) && instance !in s.instances
    requires c.chute in w.chutes && w.chutes[c.chute].price.Some?
    requires NodesFit(w, s.rows, w.chutes[c.chute], c.hotkey, host, nodes)
    requires c.job.Some? ==> c.job.value in s.jobs
    ensures var t := Placed(s, id, c, instance, host, nodes, w.chutes[c.chute].price.value);
            PlacementsOk(w, t) && RowsOk(t)
  {
    var t := Placed(s, id, c, instance, host, nodes, w.chutes[c.chute].price.value);
    forall n | n in nodes ensures !IsTaken(s.rows, n) && GpuOk(w, t.instances[instance], n) {
      assert NodeFits(w, s.rows, w.chutes[c.chute], c.hotkey, n);
    }
    assert NodesOf(t.rows, instance) == nodes by {
      forall n | n in nodes ensures n in NodesOf(t.rows, instance) {
        assert (instance, n) in t.rows;
      }
    }
    forall q, r | q in t.rows && r in t.rows && q.1 == r.1 ensures q.0 == r.0 {
      assert q in s.rows ==> IsTaken(s.rows, q.1);
      assert r in s.rows ==> IsTaken(s.rows, r.1);
    }
    hide PlacementOk, NodesFit;
    forall i | i in s.instances ensures PlacementOk(w, t.instances[i], NodesOf(t.rows, i)) {
      assert NodesOf(t.rows, i) == NodesOf(s.rows, i);
    }
    assert PlacementOk(w, t.instances[instance], nodes) by { NewPlacement(w, t.instances[instance], s.rows, host, nodes); }
  }

  lemma NewPlacement(w: World, i: Instance, rows: set<(Id, Id)>, host: string, nodes: set<Id>)
    requires i.chute in w.chutes && w.chutes[i.chute].price == Some(i.hourlyRate) && i.host == host
    requires NodesFit(w, rows, w.chutes[i.chute], i.hotkey, host, nodes)
    ensures PlacementOk(w, i, nodes)
  {
    forall n | n in nodes ensures GpuOk(w, i, n) {
      assert NodeFits(w, rows, w.chutes[i.chute], i.hotkey, n);
    }
  }

  // A config that was just retrieved for the first time has no instance and never had one.
  predicate IsFirst(s: State, id: Id, instance: Id) {
    && id in s.configs && s.configs[id].retrievedAt.Some? && s.configs[id].verifiedAt.None?
    && instance !in s.instances && InstancesOf(s, id) == {} && id !in s.claims
    && (s.configs[id].job.Some? ==> s.configs[id].job.value in s.jobs)
  }

  lemma PlacedKeepsInstances(s: State, id: Id, instance: Id, host: string, nodes: set<Id>, price: real)
    requires InstancesOk(s) && OnePerConfig(s) && ClaimsOk(s) && IsFirst(s, id, instance)
    ensures var t := Placed(s, id, s.configs[id], instance, host, nodes, price);
            InstancesOk(t) && OnePerConfig(t) && ClaimsOk(t)
  {
    var t := Placed(s, id, s.configs[id], instance, host, nodes, price);
    forall i | i in s.instances ensures t.instances[i].config != id {
      assert i in InstancesOf(s, id) <==> s.instances[i].config == id;
    }
    forall i | i in t.instances ensures InstanceOk(t.configs, t.instances[i]) {
      assert i != instance ==> InstanceOk(s.configs, s.instances[i]);
    }
  }

  lemma PlacedKeepsJobs(w: World, s: State, id: Id, instance: Id, host: string, nodes: set<Id>, price: real)
    requires ConfigsOk(w, s) && JobsOk(s) && IsFirst(s, id, instance)
    ensures var t := Placed(s, id, s.configs[id], instance, host, nodes, price);
            ConfigsOk(w, t) && JobsOk(t)
  {
    var t := Placed(s, id, s.configs[id], instance, host, nodes, price);
    hide AllUploaded, NoDuplicates;
    assert ConfigOk(w, s.jobs, s.configs[id]);
    forall d | d in t.configs ensures ConfigOk(w, t.jobs, t.configs[d]) {
      assert ConfigOk(w, s.jobs, s.configs[d]);
    }
    forall j | j in t.jobs ensures JobSane(t.jobs[j]) {
      assert JobSane(s.jobs[j]);
    }
    forall j | j in t.jobs && t.jobs[j].instance.Some? ensures RunsFor(t, j, t.jobs[j].instance.value) {
      assert s.jobs[j].instance.Some? ==> RunsFor(s, j, s.jobs[j].instance.value);
    }
  }

  lemma FirstClaim(w: World, s: State, id: Id, instance: Id, now: int)
    requires Inv(w, s) && id in s.configs && s.configs[id].retrievedAt.None? && instance !in s.instances
    ensures IsFirst(SaveConfig(s, id, Retrieved(s.configs[id], now)), id, instance)
  {
    hide PlacementsOk, RowsOk, JobsOk;
    assert ConfigOk(w, s.jobs, s.configs[id]);
    assert forall i :: i in s.instances ==> InstanceOk(s.configs, s.instances[i]);
  }

  lemma PlacedKeeps(w: World, s: State, id: Id, instance: Id, host: string, nodes: set<Id>)
    requires Inv(w, s) && IsFirst(s, id, instance) && s.configs[id].chute in w.chutes
    requires w.chutes[s.configs[id].chute].price.Some?
    requires NodesFit(w, s.rows, w.chutes[s.configs[id].chute], s.configs[id].hotkey, host, nodes)
    ensures var c := s.configs[id];
            Inv(w, Placed(s, id, c, instance, host, nodes, w.chutes[c.chute].price.value))
  {
    var c := s.configs[id];
    hide NodesFit;
    PlacementsGrow(w, s, instance, host, nodes, c, id);
    PlacedKeepsInstances(s, id, instance, host, nodes, w.chutes[c.chute].price.value);
    PlacedKeepsJobs(w, s, id, instance, host, nodes, w.chutes[c.chute].price.value);
    hide PlacementsOk, RowsOk, JobsOk, ConfigsOk, InstancesOk, OnePerConfig, ClaimsOk, Placed;
  }

  // ---- The handlers keep the invariant ----

  lemma ClaimKeeps(w: World, s: State, id: Id, instance: Id, claim: ClaimOutcome, now: int)
    requires Inv(w, s)
    ensures Inv(w, OnClaim(w, s, id, instance, claim, now))
  {
    hide Inv, Placed, SaveConfig, NodesFit, Run, Apply;
    if id in s.configs && s.configs[id].retrievedAt.None? && s.configs[id].chute in w.chutes && instance !in s.instances {
      var c := Retrieved(s.configs[id], now);
      var failed := c.(failedAt := Some(now));
      ConfigIsSane(w, s, id);
      SaveConfigKeeps(w, s, id, c);
      SaveConfigKeeps(w, s, id, failed);
      SaveConfigKeeps(w, s, id, s.configs[id].(failedAt := Some(now)));
      FirstClaim(w, s, id, instance, now);
      var t := SaveConfig(s, id, c);
      Saved(s, id, c);
      if claim.Proceeds? {
        var chute := w.chutes[c.chute];
        if chute.price.Some? && NodesFit(w, s.rows, chute, c.hotkey, claim.host, claim.nodes) {
          PlacedKeeps(w, t, id, instance, claim.host, claim.nodes);
          var u := Placed(t, id, c, instance, claim.host, claim.nodes, chute.price.value);
          PlacedLeavesConfigs(t, id, c, instance, claim.host, claim.nodes, chute.price.value);
          SaveConfigKeeps(w, u, id, c);
        }
      }
    }
  }

  lemma PlacedLeavesConfigs(s: State, id: Id, c: Config, instance: Id, host: string, nodes: set<Id>, price: real)
    requires c.job.Some? ==> c.job.value in s.jobs
    ensures Placed(s, id, c, instance, host, nodes, price).configs == s.configs
  {
  }

  lemma ConfigIsSane(w: World, s: State, id: Id)
    requires Inv(w, s) && id in s.configs
    ensures ConfigOk(w, s.jobs, s.configs[id])
  {
  }

  lemma Saved(s: State, id: Id, c: Config)
    ensures var t := SaveConfig(s, id, c);
            t.configs == s.configs[id := c] && t.instances == s.instances && t.rows == s.rows && t.jobs.Keys == s.jobs.Keys
  {
  }

  lemma IssueKeepsJobs(w: World, s: State, id: Id, chute: Id, job: Option<Id>, hotkey: string, scalable: bool)
    requires ConfigsOk(w, s) && JobsOk(s)
    ensures var t := OnIssue(w, s, id, chute, job, hotkey, scalable);
            ConfigsOk(w, t) && JobsOk(t)
  {
    var t := OnIssue(w, s, id, chute, job, hotkey, scalable);
    hide AllUploaded;
    forall c | c in t.configs ensures ConfigOk(w, t.jobs, t.configs[c]) {
      assert c in s.configs ==> ConfigOk(w, s.jobs, s.configs[c]);
    }
    forall j | j in t.jobs ensures JobSane(t.jobs[j]) {
      assert JobSane(s.jobs[j]);
    }
    forall j | j in t.jobs && t.jobs[j].instance.Some? ensures RunsFor(t, j, t.jobs[j].instance.value) {
      assert RunsFor(s, j, s.jobs[j].instance.value);
    }
  }

  // A new config under a new name leaves the instances and their GPUs alone.
  lemma IssueKeepsInstances(w: World, s: State, id: Id, chute: Id, job: Option<Id>, hotkey: string, scalable: bool)
    requires InstancesOk(s) && OnePerConfig(s) && ClaimsOk(s) && PlacementsOk(w, s) && RowsOk(s)
    ensures var t := OnIssue(w, s, id, chute, job, hotkey, scalable);
            InstancesOk(t) && OnePerConfig(t) && ClaimsOk(t) && PlacementsOk(w, t) && RowsOk(t)
  {
    var t := OnIssue(w, s, id, chute, job, hotkey, scalable);
    hide PlacementOk, NodesOf, NoDuplicates;
    assert PlacementsOk(w, t);
    forall i | i in t.instances ensures InstanceOk(t.configs, t.instances[i]) {
      assert InstanceOk(s.configs, s.instances[i]);
    }
  }

  lemma IssueKeeps(w: World, s: State, id: Id, chute: Id, job: Option<Id>, hotkey: string, scalable: bool)
    requires Inv(w, s)
    ensures Inv(w, OnIssue(w, s, id, chute, job, hotkey, scalable))
  {
    hide OnIssue, ConfigsOk, JobsOk, PlacementsOk, RowsOk, InstancesOk, OnePerConfig, ClaimsOk;
    IssueKeepsJobs(w, s, id, chute, job, hotkey, scalable);
    IssueKeepsInstances(w, s, id, chute, job, hotkey, scalable);
  }

  // Marking a config verified together with its instance.
  function Verified(s: State, id: Id, now: int): State
    requires id in s.configs
  {
    SaveConfig(MarkVerified(s, InstancesOf(s, id), now), id, s.configs[id].(verifiedAt := Some(now)))
  }

  lemma VerifiedKeepsPlacements(w: World, s: State, id: Id, now: int)
    requires id in s.configs && PlacementsOk(w, s) && RowsOk(s)
    ensures PlacementsOk(w, Verified(s, id, now)) && RowsOk(Verified(s, id, now))
  {
    var t := Verified(s, id, now);
    hide NodesOf, ResetJob, InstancesOf;
    forall i | i in t.instances ensures PlacementOk(w, t.instances[i], NodesOf(t.rows, i)) {
      assert PlacementOk(w, s.instances[i], NodesOf(s.rows, i));
      SamePlacement(w, s.instances[i], t.instances[i], NodesOf(s.rows, i));
    }
  }

  lemma VerifiedKeepsInstances(s: State, id: Id, now: int)
    requires id in s.configs && InstancesOk(s) && OnePerConfig(s) && ClaimsOk(s)
    ensures var t := Verified(s, id, now);
            InstancesOk(t) && OnePerConfig(t) && ClaimsOk(t)
  {
    var t := Verified(s, id, now);
    hide ResetJob, NoDuplicates;
    forall i | i in t.instances ensures InstanceOk(t.configs, t.instances[i]) {
      assert InstanceOk(s.configs, s.instances[i]);
    }
  }

  lemma VerifiedKeepsJobs(w: World, s: State, id: Id, now: int)
    requires id in s.configs && s.configs[id].failedAt.None? && s.configs[id].retrievedAt.Some?
    requires ConfigsOk(w, s) && JobsOk(s)
    ensures ConfigsOk(w, Verified(s, id, now)) && JobsOk(Verified(s, id, now))
  {
    var t := Verified(s, id, now);
    hide InstancesOf, NoDuplicates, AllUploaded;
    forall d | d in t.configs ensures ConfigOk(w, t.jobs, t.configs[d]) {
      assert ConfigOk(w, s.jobs, s.configs[d]);
    }
    forall j | j in t.jobs ensures JobSane(t.jobs[j]) {
      assert JobSane(s.jobs[j]);
    }
    forall j | j in t.jobs && t.jobs[j].instance.Some? ensures RunsFor(t, j, t.jobs[j].instance.value) {
      assert RunsFor(s, j, s.jobs[j].instance.value);
    }
  }

  lemma VerifiedKeeps(w: World, s: State, id: Id, now: int)
    requires Inv(w, s) && id in s.configs && s.configs[id].failedAt.None? && s.configs[id].retrievedAt.Some?
    ensures Inv(w, Verified(s, id, now))
  {
    hide Verified, ConfigsOk, JobsOk, PlacementsOk, RowsOk, InstancesOk, OnePerConfig, ClaimsOk;
    VerifiedKeepsPlacements(w, s, id, now);
    VerifiedKeepsInstances(s, id, now);
    VerifiedKeepsJobs(w, s, id, now);
  }

  lemma SamePlacement(w: World, i: Instance, k: Instance, nodes: set<Id>)
    requires PlacementOk(w, i, nodes)
    requires k.chute == i.chute && k.hotkey == i.hotkey && k.host == i.host && k.hourlyRate == i.hourlyRate
    ensures PlacementOk(w, k, nodes)
  {
    forall n | n in nodes ensures GpuOk(w, k, n) {
      assert GpuOk(w, i, n);
    }
  }

  lemma VerifyKeeps(w: World, s: State, id: Id, verify: VerifyOutcome, now: int)
    requires Inv(w, s)
    ensures Inv(w, OnVerify(s, id, verify, now))
  {
    hide Inv, SaveConfig, MarkVerified, HasJob;
    if id in s.configs && s.configs[id].verifiedAt.None? && s.configs[id].failedAt.None? && s.configs[id].retrievedAt.Some? {
      var c := s.configs[id];
      var of := InstancesOf(s, id);
      SaveConfigKeeps(w, s, id, c.(failedAt := Some(now)));
      RemoveKeeps(w, s, of);
      SaveConfigKeeps(w, RemoveInstances(s, of), id, c.(failedAt := Some(now)));
      if of != {} {
        VerifiedKeeps(w, s, id, now);
      }
    }
  }

  lemma ActivateKeepsPlacements(w: World, s: State, id: Id, permitted: bool)
    requires PlacementsOk(w, s) && RowsOk(s)
    ensures PlacementsOk(w, OnActivate(s, id, permitted)) && RowsOk(OnActivate(s, id, permitted))
  {
    var t := OnActivate(s, id, permitted);
    hide NodesOf, InstancesOf;
    forall i | i in t.instances ensures PlacementOk(w, t.instances[i], NodesOf(t.rows, i)) {
      assert PlacementOk(w, s.instances[i], NodesOf(s.rows, i));
      SamePlacement(w, s.instances[i], t.instances[i], NodesOf(s.rows, i));
    }
  }

  lemma ActivateKeepsInstances(s: State, id: Id, permitted: bool)
    requires InstancesOk(s) && OnePerConfig(s) && ClaimsOk(s)
    ensures var t := OnActivate(s, id, permitted);
            InstancesOk(t) && OnePerConfig(t) && ClaimsOk(t)
  {
    var t := OnActivate(s, id, permitted);
    hide NoDuplicates;
    forall i | i in t.instances ensures InstanceOk(t.configs, t.instances[i]) {
      assert InstanceOk(s.configs, s.instances[i]);
    }
  }

  lemma ActivateKeepsJobs(w: World, s: State, id: Id, permitted: bool)
    requires ConfigsOk(w, s) && JobsOk(s)
    ensures ConfigsOk(w, OnActivate(s, id, permitted)) && JobsOk(OnActivate(s, id, permitted))
  {
    var t := OnActivate(s, id, permitted);
    hide JobSane, ConfigOk, InstancesOf;
    forall j | j in t.jobs && t.jobs[j].instance.Some? ensures RunsFor(t, j, t.jobs[j].instance.value) {
      assert RunsFor(s, j, s.jobs[j].instance.value);
    }
  }

  lemma ActivateKeeps(w: World, s: State, id: Id, permitted: bool)
    requires Inv(w, s)
    ensures Inv(w, OnActivate(s, id, permitted))
  {
    hide OnActivate, ConfigsOk, JobsOk, PlacementsOk, RowsOk, InstancesOk, OnePerConfig, ClaimsOk;
    ActivateKeepsPlacements(w, s, id, permitted);
    ActivateKeepsInstances(s, id, permitted);
    ActivateKeepsJobs(w, s, id, permitted);
  }

  lemma InvSane(w: World, s: State, id: Id)
    requires Inv(w, s) && id in s.jobs
    ensures JobSane(s.jobs[id])
  {
  }

  lemma FinishKeeps(w: World, s: State, id: Id, status: string, filenames: seq<string>, detail: bool)
    requires Inv(w, s)
    ensures Inv(w, OnFinish(s, id, status, filenames, detail))
  {
    hide Inv, NoDuplicates;
    if id in s.jobs && s.jobs[id].finishedAt.None? {
      InvSane(w, s, id);
      SaveJobKeeps(w, s, id, OnFinish(s, id, status, filenames, detail).jobs[id]);
    }
  }

  lemma UploadKeeps(w: World, s: State, id: Id, filename: string)
    requires Inv(w, s)
    ensures Inv(w, OnUpload(s, id, filename))
  {
    hide Inv, NoDuplicates;
    if id in s.jobs && s.jobs[id].finishedAt.None? && filename in s.jobs[id].files {
      InvSane(w, s, id);
      SaveJobKeeps(w, s, id, OnUpload(s, id, filename).jobs[id]);
    }
  }

  lemma ReleaseKeeps(w: World, s: State, id: Id, hotkey: string)
    requires Inv(w, s)
    ensures Inv(w, OnRelease(s, id, hotkey))
  {
    hide Inv, NoDuplicates, AllUploaded;
    if id in s.jobs && s.jobs[id].holder == Some(hotkey) && s.jobs[id].finishedAt.None? {
      InvSane(w, s, id);
      SaveJobKeeps(w, s, id, s.jobs[id].(holder := None, instance := None));
    }
  }

  lemma ClosedIsSane(j: Job, now: int)
    requires JobSane(j) && Closed(j).Some?
    ensures JobSane(Closed(j).value.(finishedAt := Some(now)))
    ensures JobContinues(j, Closed(j).value.(finishedAt := Some(now)))
  {
  }

  lemma RemoveForKeeps(w: World, s: State, instance: Option<Id>)
    requires Inv(w, s)
    ensures Inv(w, RemoveFor(s, instance))
  {
    hide Inv;
    if instance.Some? {
      RemoveKeeps(w, s, {instance.value});
    }
  }

  lemma CompleteKeeps(w: World, s: State, id: Id, now: int)
    requires Inv(w, s)
    ensures Inv(w, OnComplete(s, id, now))
  {
    hide Inv, JobSane, Closed, JobContinues, SaveJob, RemoveFor;
    if id in s.jobs && s.jobs[id].finishedAt.None? && Closed(s.jobs[id]).Some? {
      var j := Closed(s.jobs[id]).value.(finishedAt := Some(now));
      InvSane(w, s, id);
      ClosedIsSane(s.jobs[id], now);
      SaveJobKeeps(w, s, id, j);
      RemoveForKeeps(w, SaveJob(s, id, j), s.jobs[id].instance);
    }
  }

  lemma BatchIsFree(w: World, s: State, batch: map<Id, Option<Id>>)
    requires Inv(w, s)
    ensures Inv(w, s.(batch := batch))
  {
    hide PlacementOk, JobSane, ConfigOk, InstanceOk, NodesOf;
    assert PlacementsOk(w, s.(batch := batch)) && ConfigsOk(w, s.(batch := batch));
  }

  lemma BillingKeeps(w: World, s: State, id: Id, now: int)
    requires Inv(w, s)
    ensures Inv(w, OnBillingTurn(s, id, now))
  {
    hide Inv, SaveJob, RemoveFor, NoDuplicates;
    if id in s.batch && id in s.jobs {
      var j := s.jobs[id].(status := "billing_termination", hasDetail := true, finishedAt := Some(now));
      InvSane(w, s, id);
      SaveJobKeeps(w, s, id, j);
      RemoveForKeeps(w, SaveJob(s, id, j), s.batch[id]);
      BatchIsFree(w, RemoveFor(SaveJob(s, id, j), s.batch[id]), s.batch - {id});
    }
  }

  lemma StampingIsFree(w: World, s: State, stamping: set<Id>)
    requires Inv(w, s)
    ensures Inv(w, s.(stamping := stamping))
  {
    hide PlacementOk, JobSane, ConfigOk, InstanceOk, NodesOf;
    assert PlacementsOk(w, s.(stamping := stamping)) && ConfigsOk(w, s.(stamping := stamping));
  }

  lemma RestampKeeps(w: World, s: State, id: Id, now: int)
    requires Inv(w, s)
    ensures Inv(w, OnRestamp(s, id, now))
  {
    hide Inv, SaveConfig;
    if id in s.stamping && id in s.configs {
      var c := s.configs[id].(retrievedAt := Some(now));
      ConfigIsSane(w, s, id);
      SaveConfigKeeps(w, s, id, c);
      StampingIsFree(w, SaveConfig(s, id, c), s.stamping - {id});
    }
  }

  lemma StepKeeps(w: World, s: State, step: Step)
    requires Inv(w, s)
    ensures Inv(w, Apply(w, s, step))
  {
    hide Inv, OnIssue, OnClaim, OnRestamp, OnVerify, OnActivate, OnFinish, OnUpload, OnComplete, OnRelease, OnBillingTurn,
      RemoveInstances, FailJobsOn, SaveJob;
    match step
    case CreateJob(id, chute) =>
      SaveJobKeepsNew(w, s, id, chute);
    case Issue(id, chute, job, hotkey, scalable) => IssueKeeps(w, s, id, chute, job, hotkey, scalable);
    case Claim(id, instance, claim, now) => ClaimKeeps(w, s, id, instance, claim, now);
    case Restamp(id, now) => RestampKeeps(w, s, id, now);
    case Verify(id, verify, now) => VerifyKeeps(w, s, id, verify, now);
    case Activate(id, permitted) => ActivateKeeps(w, s, id, permitted);
    case DeleteByMiner(i, hotkey, now) =>
      FailJobsKeeps(w, s, i, now);
      RemoveKeeps(w, FailJobsOn(s, i, now), {i});
    case Purge(i, now) =>
      RemoveKeeps(w, s, {i});
      FailJobsKeeps(w, RemoveInstances(s, {i}), i, now);
    case Remove(i) => RemoveKeeps(w, s, {i});
    case Finish(id, status, filenames, detail) => FinishKeeps(w, s, id, status, filenames, detail);
    case Upload(id, filename) => UploadKeeps(w, s, id, filename);
    case Complete(id, now) => CompleteKeeps(w, s, id, now);
    case Release(id, hotkey) => ReleaseKeeps(w, s, id, hotkey);
    case BillingSelect(broke) => BatchIsFree(w, s, OnBillingSelect(s, broke).batch);
    case BillingTurn(id, now) => BillingKeeps(w, s, id, now);
  }

  lemma SaveJobKeepsNew(w: World, s: State, id: Id, chute: Id)
    requires Inv(w, s)
    ensures id !in s.jobs ==> Inv(w, SaveJob(s, id, Job(chute, None, None, [], "pending", false, map[], None, None)))
  {
    hide Inv;
    if id !in s.jobs {
      SaveJobKeeps(w, s, id, Job(chute, None, None, [], "pending", false, map[], None, None));
    }
  }

  /**
    * In every reachable state: an active instance is verified, and its config was claimed and is verified; no config is
    * both verified and failed; a config has at most one instance and only ever had one; every instance holds exactly
    * the number of GPUs its selector asks for, all of them its miner's, verified, suitable and on its host, and no GPU
    * is held twice; a job's history has at most 15 entries, none twice, and contains its holder; and a job marked
    * complete has all its files uploaded.
    */
  lemma {:induction false} EveryRunIsSafe(w: World, steps: seq<Step>)
    ensures Inv(w, Run(w, steps))
  {
    hide Apply, Inv;
    if steps == [] {
      StartIsSafe(w);
    } else {
      EveryRunIsSafe(w, steps[..|steps| - 1]);
      StepKeeps(w, Run(w, steps[..|steps| - 1]), steps[|steps| - 1]);
    }
  }

  lemma StartIsSafe(w: World)
    ensures Inv(w, START)
  {
  }
}
