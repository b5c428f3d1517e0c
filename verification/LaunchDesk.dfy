/** The handlers of launch configs, instances and jobs as they run, each proved equal to its step of the model. */
module LaunchDesk {
  import opened Base
  import opened Launch
  import Gpu

  class Desk {
    const world: World
    var configs: map<Id, Config>
    var instances: map<Id, Instance>
    var rows: set<(Id, Id)>
    var jobs: map<Id, Job>
    var batch: map<Id, Option<Id>>
    var stamping: set<Id>
    ghost var claims: seq<Id>

    ghost function View(): State
      reads this
    {
      State(configs, instances, rows, jobs, batch, stamping, claims)
    }

    constructor (world: World)
      ensures this.world == world && View() == Run(world, [])
    {
      this.world := world;
      configs, instances, rows, jobs, batch, stamping, claims := map[], map[], {}, map[], map[], {}, [];
    }

    // ---- What the database does by itself ----

    // UPDATE launch_configs, with its trigger.
    method Save(id: Id, c: Config)
      modifies this
      ensures View() == SaveConfig(old(View()), id, c)
    {
      configs := configs[id := c];
      if c.job.Some? && c.failedAt.Some? && c.job.value in jobs {
        jobs := jobs[c.job.value := jobs[c.job.value].(holder := None, instance := None)];
      }
    }

    // DELETE FROM instances, with its foreign keys.
    method Delete(gone: set<Id>)
      modifies this
      ensures View() == RemoveInstances(old(View()), gone)
    {
      instances := instances - gone;
      rows := set r | r in rows && r.0 !in gone;
      jobs := map j | j in jobs :: Detached(jobs[j], gone);
    }

    // ---- Launch configs ----

    method GetLaunchConfig(id: Id, chute: Id, job: Option<Id>, hotkey: string, scalable: bool)
      modifies this
      ensures View() == Apply(world, old(View()), Issue(id, chute, job, hotkey, scalable))
    {
      if id in configs || chute !in world.chutes {
        return;
      }
      if job.None? {
        if !scalable {
          return;
        }
      } else {
        if job.value !in jobs || jobs[job.value].chute != chute {
          return;
        }
        var j := jobs[job.value];
        if |j.history| >= 15 {
          return;
        }
        if hotkey in j.history {
          return;
        }
        jobs := jobs[job.value := j.(history := j.history + [hotkey])];
      }
      configs := configs[id := Config(chute, job, hotkey, None, None, None)];
    }

    method ValidateNode(chute: Chute, n: Id, hotkey: string) returns (ok: bool)
      ensures ok <==> NodeFits(world, rows, chute, hotkey, n)
    {
      if n !in world.nodes || world.nodes[n].hotkey != hotkey {
        return false;
      }
      var node := world.nodes[n];
      if !node.verified {
        return false;
      }
      if exists r :: r in rows && r.1 == n {
        return false;
      }
      ok := Gpu.IsSuitable(world.catalogue, chute.selector, node.gpu, node.verified);
    }

    // Checks the GPUs one by one and collects their hosts; on success the rows are inserted.
    method ValidateNodes(chute: Chute, nodes: set<Id>, hotkey: string, host: string, instance: Id) returns (ok: bool)
      modifies `rows
      ensures ok <==> NodesFit(world, old(rows), chute, hotkey, host, nodes)
      ensures ok ==> rows == old(rows) + Assignments(instance, nodes)
    {
      if chute.selector.gpuCount != Some(|nodes|) {
        return false;
      }
      var hosts: set<string> := {};
      var todo := nodes;
      while todo != {}
        invariant todo <= nodes && rows == old(rows) + Assignments(instance, nodes - todo)
        invariant forall n :: n in nodes - todo ==> NodeFits(world, old(rows), chute, hotkey, n)
        invariant forall h :: h in hosts <==> exists n :: n in nodes - todo && n in world.nodes && world.nodes[n].host == h
        decreases |todo|
      {
        var n :| n in todo;
        var fits := ValidateNode(chute, n, hotkey);
        OthersDoNotTake(old(rows), instance, nodes - todo, n);
        if !fits {
          return false;
        }
        todo := todo - {n};
        hosts := hosts + {world.nodes[n].host};
        rows := rows + {(instance, n)};
      }
      assert nodes - todo == nodes;
      if hosts == {} {
        assert forall n :: n in nodes ==> NodeFits(world, old(rows), chute, hotkey, n);
        assert forall n :: n in nodes ==> world.nodes[n].host in hosts;
        return false;
      }
      var first :| first in hosts;
      ok := hosts == {first} && Lower(first) == Lower(host);
      OneHost(world, nodes, hosts, first, host);
    }

    method ClaimLaunchConfig(id: Id, instance: Id, claim: ClaimOutcome, now: int)
      modifies this
      ensures View() == Apply(world, old(View()), Claim(id, instance, claim, now))
    {
      hide NodesFit, ResetJob, Run;
      if id !in configs || configs[id].retrievedAt.Some? || configs[id].chute !in world.chutes || instance in instances {
        return;
      }
      var stored := configs[id];
      var c := stored.(retrievedAt := Some(now));
      if claim.Raises? {
        return;
      }
      if claim.Rejected? {
        Save(id, c.(failedAt := Some(now)));
        return;
      }
      // One transaction from here: what it wrote is put back where it is rolled back.
      var configsBefore, jobsBefore, rowsBefore := configs, jobs, rows;
      Save(id, c);
      if c.job.Some? && !(c.job.value in jobs && jobs[c.job.value].holder.None?) {
        Save(id, c.(failedAt := Some(now)));
        SavedTwice(old(View()), id, c, c.(failedAt := Some(now)));
        return;
      }
      var chute := world.chutes[c.chute];
      if chute.price.None? || (c.job.Some? && !claim.portsMatch) {
        configs, jobs := configsBefore, jobsBefore;
        return;
      }
      if c.job.Some? {
        jobs := jobs[c.job.value := jobs[c.job.value].(holder := Some(c.hotkey), instance := Some(instance))];
      }
      var fit := ValidateNodes(chute, claim.nodes, c.hotkey, claim.host, instance);
      if !fit {
        configs, jobs, rows := configsBefore, jobsBefore, rowsBefore;
        Save(id, stored.(failedAt := Some(now)));
        return;
      }
      if !claim.encrypts {
        configs, jobs, rows := configsBefore, jobsBefore, rowsBefore;
        return;
      }
      instances := instances[instance := Instance(c.chute, id, c.hotkey, claim.host, false, false, chute.price.value)];
      stamping, claims := stamping + {id}, claims + [id];
      Save(id, c);
    }

    // The transaction that follows a committed claim.
    method StampClaim(id: Id, now: int)
      modifies this
      ensures View() == Apply(world, old(View()), Restamp(id, now))
    {
      if id in stamping && id in configs {
        Save(id, configs[id].(retrievedAt := Some(now)));
        stamping := stamping - {id};
      }
    }

    // The check of a job's ports raises before anything is committed.
    method VerifyLaunchConfigInstance(id: Id, verify: VerifyOutcome, now: int)
      modifies this
      ensures View() == Apply(world, old(View()), Verify(id, verify, now))
    {
      hide ResetJob, Run, Detached;
      if id !in configs || configs[id].verifiedAt.Some? || configs[id].failedAt.Some? {
        return;
      }
      var c := configs[id];
      if c.retrievedAt.None? || verify.Throws? {
        return;
      }
      var found := set i | i in instances && instances[i].config == id;
      if found == {} {
        Save(id, c.(failedAt := Some(now)));
      } else if verify.Fails? {
        Delete(found);
        Save(id, c.(failedAt := Some(now)));
      } else {
        if (exists j :: j in jobs && jobs[j].instance.Some? && jobs[j].instance.value in found) && !verify.portsOpen {
          return;
        }
        jobs := map j | j in jobs :: Started(jobs[j], found, now);
        instances := map i | i in instances :: if i in found then instances[i].(verified := true) else instances[i];
        Save(id, c.(verifiedAt := Some(now)));
      }
    }

    method ActivateLaunchConfigInstance(id: Id, permitted: bool)
      modifies this
      ensures View() == Apply(world, old(View()), Step.Activate(id, permitted))
    {
      if id !in configs || configs[id].verifiedAt.None? {
        return;
      }
      if permitted {
        var found := set i | i in instances && instances[i].config == id;
        instances := map i | i in instances :: if i in found then instances[i].(active := true) else instances[i];
      }
    }

    // ---- Deletions ----

    // Fails the unfinished job of an instance, as far as the job still refers to it.
    method FailJob(i: Id, now: int)
      modifies this
      ensures View() == FailJobsOn(old(View()), i, now)
    {
      jobs := map j | j in jobs :: Failed(jobs[j], i, now);
    }

    method DeleteInstance(i: Id, hotkey: string, now: int)
      modifies this
      ensures View() == Apply(world, old(View()), DeleteByMiner(i, hotkey, now))
    {
      if i in instances && instances[i].hotkey == hotkey {
        FailJob(i, now);
        Delete({i});
      }
    }

    method PurgeInstance(i: Id, now: int)
      modifies this
      ensures View() == Apply(world, old(View()), Step.Purge(i, now))
    {
      Delete({i});
      FailJob(i, now);
    }

    // ---- Jobs ----

    method FinishJob(id: Id, status: string, filenames: seq<string>, detail: bool)
      modifies this
      ensures View() == Apply(world, old(View()), Step.Finish(id, status, filenames, detail))
    {
      if id !in jobs || jobs[id].finishedAt.Some? {
        return;
      }
      var j := jobs[id].(status := status);
      if j.status == "complete" && filenames != [] {
        j := j.(status := "complete_pending_uploads");
      }
      j := j.(hasDetail := detail);
      var files: map<string, bool> := map[];
      for k := 0 to |filenames|
        invariant files == Declared(filenames[..k])
      {
        files := files[filenames[k] := false];
      }
      assert filenames[..|filenames|] == filenames;
      jobs := jobs[id := j.(files := files)];
    }

    method UploadJobFile(id: Id, filename: string)
      modifies this
      ensures View() == Apply(world, old(View()), Step.Upload(id, filename))
    {
      if id !in jobs || jobs[id].finishedAt.Some? || filename !in jobs[id].files {
        return;
      }
      jobs := jobs[id := jobs[id].(files := jobs[id].files[filename := true])];
    }

    // The names of the files that are still missing.
    method MissingFiles(files: map<string, bool>) returns (missing: set<string>)
      ensures forall f :: f in missing <==> f in files && !files[f]
    {
      missing := {};
      var todo := files.Keys;
      while todo != {}
        invariant todo <= files.Keys
        invariant forall f :: f in missing <==> f in files && f !in todo && !files[f]
        decreases |todo|
      {
        var f :| f in todo;
        todo := todo - {f};
        if !files[f] {
          missing := missing + {f};
        }
      }
    }

    method CompleteJob(id: Id, now: int)
      modifies this
      ensures View() == Apply(world, old(View()), Step.Complete(id, now))
    {
      if id !in jobs || jobs[id].finishedAt.Some? {
        return;
      }
      var j := jobs[id];
      if j.files != map[] {
        var missing := MissingFiles(j.files);
        if missing != {} {
          assert !AllUploaded(j.files) by {
            var f :| f in missing;
          }
          if "complete" <= j.status {
            j := j.(status := "partial_failure", hasDetail := true);
          } else if !j.hasDetail {
            return;
          }
        } else if "complete" <= j.status {
          j := j.(status := "complete");
        }
      }
      jobs := jobs[id := j.(finishedAt := Some(now))];
      if j.instance.Some? {
        Delete({j.instance.value});
      }
    }

    method ReleaseJob(id: Id, hotkey: string)
      modifies this
      ensures View() == Apply(world, old(View()), Step.Release(id, hotkey))
    {
      if id in jobs && jobs[id].holder == Some(hotkey) && jobs[id].finishedAt.None? {
        jobs := jobs[id := jobs[id].(holder := None, instance := None)];
      }
    }

    // The billing loop up to its next commit; `broke` are the jobs of users without balance.
    method SelectForBilling(broke: set<Id>)
      modifies this
      ensures View() == Apply(world, old(View()), Step.BillingSelect(broke))
    {
      batch := map j | j in broke && j in jobs && jobs[j].finishedAt.None? :: jobs[j].instance;
    }

    method BillNext(id: Id, now: int)
      modifies this
      ensures View() == Apply(world, old(View()), Step.BillingTurn(id, now))
    {
      if id !in batch || id !in jobs {
        return;
      }
      var j := jobs[id].(finishedAt := Some(now));
      j := j.(status := "billing_termination", hasDetail := true);
      jobs := jobs[id := j];
      if batch[id].Some? {
        Delete({batch[id].value});
      }
      batch := batch - {id};
    }
  }

  lemma SavedTwice(s: State, id: Id, c: Config, d: Config)
    requires d.job == c.job && d.failedAt.Some?
    ensures SaveConfig(SaveConfig(s, id, c), id, d) == SaveConfig(s, id, d)
  {
  }

  lemma OthersDoNotTake(rows: set<(Id, Id)>, instance: Id, nodes: set<Id>, n: Id)
    requires n !in nodes
    ensures IsTaken(rows + Assignments(instance, nodes), n) <==> IsTaken(rows, n)
  {
    if IsTaken(rows, n) {
      var r :| r in rows && r.1 == n;
      assert r in rows + Assignments(instance, nodes);
    }
  }

  lemma OneHost(w: World, nodes: set<Id>, hosts: set<string>, first: string, host: string)
    requires nodes <= w.nodes.Keys && first in hosts
    requires forall h :: h in hosts <==> exists n :: n in nodes && n in w.nodes && w.nodes[n].host == h
    ensures hosts == {first} && Lower(first) == Lower(host) <==>
            && (forall m, n :: m in nodes && n in nodes ==> w.nodes[m].host == w.nodes[n].host)
            && forall n :: n in nodes ==> Lower(w.nodes[n].host) == Lower(host)
  {
    forall n | n in nodes ensures w.nodes[n].host in hosts {
    }
    hide Lower;
  }
}
